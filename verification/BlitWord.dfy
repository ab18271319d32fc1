// Words of the blitter as sixteen bits, the logic functions of its three sources, the barrel
// shifter and the area fill.

module BlitWord {

  // Bit 0 comes first.
  type Word = w: seq<bool> | |w| == 16 witness [
    false, false, false, false, false, false, false, false,
    false, false, false, false, false, false, false, false]

  const ZERO: Word := [
    false, false, false, false, false, false, false, false,
    false, false, false, false, false, false, false, false]

  const ONES: Word := [
    true, true, true, true, true, true, true, true,
    true, true, true, true, true, true, true, true]

  function And(a: Word, b: Word): Word { seq(16, k requires 0 <= k < 16 => a[k] && b[k]) }

  // ---- logic functions ----

  // blit_func for one bit of each source, in four parts.
  function BitFuncPart0(a: bool, b: bool, c: bool, mt: int): bool {
    match mt
    case 0x00 => false
    case 0x01 => !(a || b || c)
    case 0x02 => c && !(a || b)
    case 0x03 => !(a || b)
    case 0x04 => b && !(a || c)
    case 0x05 => !(a || c)
    case 0x06 => !a && (b != c)
    case 0x07 => !(a || (b && c))
    case 0x08 => !a && b && c
    case 0x09 => !(a || (b != c))
    case 0x0a => !a && c
    case 0x0b => !(a || (b && !c))
    case 0x0c => !a && b
    case 0x0d => !(a || (!b && c))
    case 0x0e => !a && (b || c)
    case 0x0f => !a
    case 0x10 => a && !(b || c)
    case 0x11 => !(b || c)
    case 0x12 => !b && (a != c)
    case 0x13 => !(b || (a && c))
    case 0x14 => !c && (a != b)
    case 0x15 => !(c || (a && b))
    case 0x16 => a != ((a && b) || (b != c))
    case 0x17 => !(a != ((a != b) && (a != c)))
    case 0x18 => (a != b) && (a != c)
    case 0x19 => b != (!c || (a && b))
    case 0x1a => a != (c || (a && b))
    case 0x1b => a != (c || !(a != b))
    case 0x1c => a != (b || (a && c))
    case 0x1d => a != (b || !(a != c))
    case 0x1e => a != (b || c)
    case 0x1f => !(a && (b || c))
    case 0x20 => a && !b && c
    case 0x21 => !(b || (a != c))
    case 0x22 => !b && c
    case 0x23 => !(b || (a && !c))
    case 0x24 => (a != b) && (b != c)
    case 0x25 => a != (!c || (a && b))
    case 0x26 => b != (c || (a && b))
    case 0x27 => !(a != (c && (a != b)))
    case 0x28 => c && (a != b)
    case 0x29 => !((a != b) != (c || (a && b)))
    case 0x2a => c && !(a && b)
    case 0x2b => !(a != ((a != b) && (b != c)))
    case 0x2c => b != (a && (b || c))
    case 0x2d => a != (b || !c)
    case 0x2e => a != (b || (a != c))
    case 0x2f => !(a && (b || !c))
    case 0x30 => a && !b
    case 0x31 => !(b || (!a && c))
    case 0x32 => !b && (a || c)
    case 0x33 => !b
    case 0x34 => b != (a || (b && c))
    case 0x35 => b != (a || !(b != c))
    case 0x36 => b != (a || c)
    case 0x37 => !(b && (a || c))
    case 0x38 => a != (b && (a || c))
    case 0x39 => b != (a || !c)
    case 0x3a => b != (a || (b != c))
    case 0x3b => !(b && (a || !c))
    case 0x3c => a != b
    case 0x3d => a != (b || !(a || c))
    case 0x3e => a != (b || (a != (a || c)))
    case 0x3f => !(a && b)
    case _ => false
  }

  function BitFuncPart1(a: bool, b: bool, c: bool, mt: int): bool {
    match mt
    case 0x40 => a && b && !c
    case 0x41 => !(c || (a != b))
    case 0x42 => (a != c) && (b != c)
    case 0x43 => a != (!b || (a && c))
    case 0x44 => b && !c
    case 0x45 => !(c || (a && !b))
    case 0x46 => c != (b || (a && c))
    case 0x47 => !(a != (b && (a != c)))
    case 0x48 => b && (a != c)
    case 0x49 => !((a != c) != (b || (a && c)))
    case 0x4a => c != (a && (b || c))
    case 0x4b => a != (!b || c)
    case 0x4c => b && !(a && c)
    case 0x4d => a != ((a != b) || !(a != c))
    case 0x4e => a != (c || (a != b))
    case 0x4f => !(a && (!b || c))
    case 0x50 => a && !c
    case 0x51 => !(c || (!a && b))
    case 0x52 => c != (a || (b && c))
    case 0x53 => !(b != (a && (b != c)))
    case 0x54 => !c && (a || b)
    case 0x55 => !c
    case 0x56 => c != (a || b)
    case 0x57 => !(c && (a || b))
    case 0x58 => a != (c && (a || b))
    case 0x59 => c != (a || !b)
    case 0x5a => a != c
    case 0x5b => a != (c || !(a || b))
    case 0x5c => c != (a || (b != c))
    case 0x5d => !(c && (a || !b))
    case 0x5e => a != (c || (a != (a || b)))
    case 0x5f => !(a && c)
    case 0x60 => a && (b != c)
    case 0x61 => !((b != c) != (a || (b && c)))
    case 0x62 => c != (b && (a || c))
    case 0x63 => b != (!a || c)
    case 0x64 => b != (c && (a || b))
    case 0x65 => c != (!a || b)
    case 0x66 => b != c
    case 0x67 => b != (c || !(a || b))
    case 0x68 => (a && b) != (c && (a || b))
    case 0x69 => !((a != b) != c)
    case 0x6a => c != (a && b)
    case 0x6b => !((a != b) != (c && (a || b)))
    case 0x6c => b != (a && c)
    case 0x6d => !((a != c) != (b && (a || c)))
    case 0x6e => (!a && b) || (b != c)
    case 0x6f => !a || (b != c)
    case 0x70 => a && !(b && c)
    case 0x71 => !(a != ((a != b) || (a != c)))
    case 0x72 => b != (c || (a != b))
    case 0x73 => !(b && (!a || c))
    case 0x74 => c != (b || (a != c))
    case 0x75 => !(c && (!a || b))
    case 0x76 => b != (c || (a != (a && b)))
    case 0x77 => !(b && c)
    case 0x78 => a != (b && c)
    case 0x79 => !((b != c) != (a && (b || c)))
    case 0x7a => (a && !b) || (a != c)
    case 0x7b => !b || (a != c)
    case 0x7c => (a != b) || (a && !c)
    case 0x7d => !c || (a != b)
    case 0x7e => (a != b) || (a != c)
    case 0x7f => !(a && b && c)
    case _ => false
  }

  function BitFuncPart2(a: bool, b: bool, c: bool, mt: int): bool {
    match mt
    case 0x80 => a && b && c
    case 0x81 => !((a != b) || (a != c))
    case 0x82 => c && !(a != b)
    case 0x83 => a != (!b || (a && !c))
    case 0x84 => b && !(a != c)
    case 0x85 => a != (!c || (a && !b))
    case 0x86 => (b != c) != (a && (b || c))
    case 0x87 => !(a != (b && c))
    case 0x88 => b && c
    case 0x89 => b != (!c && (!a || b))
    case 0x8a => c && (!a || b)
    case 0x8b => a != (!b || (a != c))
    case 0x8c => b && (!a || c)
    case 0x8d => a != (!c || (a != b))
    case 0x8e => a != ((a != b) || (a != c))
    case 0x8f => !a || (b && c)
    case 0x90 => a && !(b != c)
    case 0x91 => b != (!c || (!a && b))
    case 0x92 => (a != c) != (b && (a || c))
    case 0x93 => !(b != (a && c))
    case 0x94 => (a != b) != (c && (a || b))
    case 0x95 => !(c != (a && b))
    case 0x96 => (a != b) != c
    case 0x97 => (a != b) != (c || !(a || b))
    case 0x98 => b != (!c && (a || b))
    case 0x99 => !(b != c)
    case 0x9a => c != (a && !b)
    case 0x9b => !(b != (c && (a || b)))
    case 0x9c => b != (a && !c)
    case 0x9d => !(c != (b && (a || c)))
    case 0x9e => (b != c) != (a || (b && c))
    case 0x9f => !(a && (b != c))
    case 0xa0 => a && c
    case 0xa1 => a != (!c && (a || !b))
    case 0xa2 => c && (a || !b)
    case 0xa3 => b != (!a || (b != c))
    case 0xa4 => a != (!c && (a || b))
    case 0xa5 => !(a != c)
    case 0xa6 => c != (!a && b)
    case 0xa7 => !(a != (c && (a || b)))
    case 0xa8 => c && (a || b)
    case 0xa9 => !(c != (a || b))
    case 0xaa => c
    case 0xab => c || !(a || b)
    case 0xac => b != (a && (b != c))
    case 0xad => !(c != (a || (b && c)))
    case 0xae => c || (!a && b)
    case 0xaf => !a || c
    case 0xb0 => a && (!b || c)
    case 0xb1 => !(a != (c || (a != b)))
    case 0xb2 => a != ((a != c) && (b != c))
    case 0xb3 => !b || (a && c)
    case 0xb4 => a != (b && !c)
    case 0xb5 => !(c != (a && (b || c)))
    case 0xb6 => (a != c) != (b || (a && c))
    case 0xb7 => !(b && (a != c))
    case 0xb8 => a != (b && (a != c))
    case 0xb9 => !(c != (b || (a && c)))
    case 0xba => c || (a && !b)
    case 0xbb => !b || c
    case 0xbc => (a != b) || (a && c)
    case 0xbd => (a != b) || !(a != c)
    case 0xbe => c || (a != b)
    case 0xbf => c || !(a && b)
    case _ => false
  }

  function BitFuncPart3(a: bool, b: bool, c: bool, mt: int): bool {
    match mt
    case 0xc0 => a && b
    case 0xc1 => a != (!b && (a || !c))
    case 0xc2 => a != (!b && (a || c))
    case 0xc3 => !(a != b)
    case 0xc4 => b && (a || !c)
    case 0xc5 => !(b != (a || (b != c)))
    case 0xc6 => b != (!a && c)
    case 0xc7 => !(a != (b && (a || c)))
    case 0xc8 => b && (a || c)
    case 0xc9 => !(b != (a || c))
    case 0xca => c != (a && (b != c))
    case 0xcb => !(b != (a || (b && c)))
    case 0xcc => b
    case 0xcd => b || !(a || c)
    case 0xce => b || (!a && c)
    case 0xcf => !a || b
    case 0xd0 => a && (b || !c)
    case 0xd1 => !(a != (b || (a != c)))
    case 0xd2 => a != (!b && c)
    case 0xd3 => !(b != (a && (b || c)))
    case 0xd4 => a != ((a != b) && (b != c))
    case 0xd5 => !c || (a && b)
    case 0xd6 => (a != b) != (c || (a && b))
    case 0xd7 => !(c && (a != b))
    case 0xd8 => a != (c && (a != b))
    case 0xd9 => !(b != (c || (a && b)))
    case 0xda => (a && b) || (a != c)
    case 0xdb => !((a != b) && (b != c))
    case 0xdc => b || (a && !c)
    case 0xdd => b || !c
    case 0xde => b || (a != c)
    case 0xdf => b || !(a && c)
    case 0xe0 => a && (b || c)
    case 0xe1 => !(a != (b || c))
    case 0xe2 => c != (b && (a != c))
    case 0xe3 => !(a != (b || (a && c)))
    case 0xe4 => b != (c && (a != b))
    case 0xe5 => !(a != (c || (a && b)))
    case 0xe6 => (a && b) || (b != c)
    case 0xe7 => !((a != b) && (a != c))
    case 0xe8 => a != ((a != b) && (a != c))
    case 0xe9 => (a != b) != (!c || (a && b))
    case 0xea => c || (a && b)
    case 0xeb => c || !(a != b)
    case 0xec => b || (a && c)
    case 0xed => b || !(a != c)
    case 0xee => b || c
    case 0xef => !a || b || c
    case 0xf0 => a
    case 0xf1 => a || !(b || c)
    case 0xf2 => a || (!b && c)
    case 0xf3 => a || !b
    case 0xf4 => a || (b && !c)
    case 0xf5 => a || !c
    case 0xf6 => a || (b != c)
    case 0xf7 => a || !(b && c)
    case 0xf8 => a || (b && c)
    case 0xf9 => a || !(b != c)
    case 0xfa => a || c
    case 0xfb => a || !b || c
    case 0xfc => a || b
    case 0xfd => a || b || !c
    case 0xfe => a || b || c
    case 0xff => true
    case _ => false
  }

  function BitFunc(a: bool, b: bool, c: bool, mt: int): bool {
    if mt < 0x40 then BitFuncPart0(a, b, c, mt)
    else if mt < 0x80 then BitFuncPart1(a, b, c, mt)
    else if mt < 0xc0 then BitFuncPart2(a, b, c, mt)
    else BitFuncPart3(a, b, c, mt)
  }

  // What a logic function stands for: bit 4a + 2b + c of its number.
  function Term(a: bool, b: bool, c: bool): int { (if a then 4 else 0) + (if b then 2 else 0) + (if c then 1 else 0) }

  predicate Selected(mt: int, term: int) {
    match term
    case 0 => mt % 2 == 1
    case 1 => (mt / 2) % 2 == 1
    case 2 => (mt / 4) % 2 == 1
    case 3 => (mt / 8) % 2 == 1
    case 4 => (mt / 16) % 2 == 1
    case 5 => (mt / 32) % 2 == 1
    case 6 => (mt / 64) % 2 == 1
    case _ => (mt / 128) % 2 == 1
  }

  lemma BitFunc00(a: bool, b: bool, c: bool, mt: int)
    requires 0x00 <= mt <= 0x1f
    ensures BitFuncPart0(a, b, c, mt) == Selected(mt, Term(a, b, c))
  {
  }

  lemma BitFunc20(a: bool, b: bool, c: bool, mt: int)
    requires 0x20 <= mt <= 0x3f
    ensures BitFuncPart0(a, b, c, mt) == Selected(mt, Term(a, b, c))
  {
  }

  lemma BitFunc40(a: bool, b: bool, c: bool, mt: int)
    requires 0x40 <= mt <= 0x5f
    ensures BitFuncPart1(a, b, c, mt) == Selected(mt, Term(a, b, c))
  {
  }

  lemma BitFunc60(a: bool, b: bool, c: bool, mt: int)
    requires 0x60 <= mt <= 0x7f
    ensures BitFuncPart1(a, b, c, mt) == Selected(mt, Term(a, b, c))
  {
  }

  lemma BitFunc80(a: bool, b: bool, c: bool, mt: int)
    requires 0x80 <= mt <= 0x9f
    ensures BitFuncPart2(a, b, c, mt) == Selected(mt, Term(a, b, c))
  {
  }

  lemma BitFuncA0(a: bool, b: bool, c: bool, mt: int)
    requires 0xa0 <= mt <= 0xbf
    ensures BitFuncPart2(a, b, c, mt) == Selected(mt, Term(a, b, c))
  {
  }

  lemma BitFuncC0(a: bool, b: bool, c: bool, mt: int)
    requires 0xc0 <= mt <= 0xdf
    ensures BitFuncPart3(a, b, c, mt) == Selected(mt, Term(a, b, c))
  {
  }

  lemma BitFuncE0(a: bool, b: bool, c: bool, mt: int)
    requires 0xe0 <= mt <= 0xff
    ensures BitFuncPart3(a, b, c, mt) == Selected(mt, Term(a, b, c))
  {
  }

  // Every one of the 256 functions is the one its number stands for.
  lemma BitFuncIsSelected(a: bool, b: bool, c: bool, mt: int)
    requires 0 <= mt < 256
    ensures BitFunc(a, b, c, mt) == Selected(mt, Term(a, b, c))
  {
    hide BitFuncPart0, BitFuncPart1, BitFuncPart2, BitFuncPart3, Selected;
    if mt < 0x80 {
      if mt < 0x40 {
        if mt < 0x20 { BitFunc00(a, b, c, mt); } else { BitFunc20(a, b, c, mt); }
      } else {
        if mt < 0x60 { BitFunc40(a, b, c, mt); } else { BitFunc60(a, b, c, mt); }
      }
    } else {
      if mt < 0xc0 {
        if mt < 0xa0 { BitFunc80(a, b, c, mt); } else { BitFuncA0(a, b, c, mt); }
      } else {
        if mt < 0xe0 { BitFuncC0(a, b, c, mt); } else { BitFuncE0(a, b, c, mt); }
      }
    }
  }

  function BlitFunc(a: Word, b: Word, c: Word, mt: int): Word {
    seq(16, k requires 0 <= k < 16 => BitFunc(a[k], b[k], c[k], mt))
  }

  // ---- the specialised kernels ----

  // Which sources the kernel for a logic function looks at.
  datatype Uses = Uses(a: bool, b: bool, c: bool)

  predicate HasKernel(mt: int) {
    || mt in {0x00, 0x0a, 0x2a, 0x30, 0x3a, 0x3c, 0x4a, 0x6a}
    || mt in {0x8a, 0x8c, 0x9a, 0xa8, 0xaa, 0xb1, 0xca}
    || mt in {0xcc, 0xd8, 0xe2, 0xea, 0xf0, 0xfa, 0xfc}
  }

  function KernelUses(mt: int): Uses {
    match mt
    case 0x00 => Uses(false, false, false)
    case 0x0a => Uses(true, false, true)
    case 0x30 => Uses(true, true, false)
    case 0x3c => Uses(true, true, false)
    case 0xaa => Uses(false, false, true)
    case 0xcc => Uses(false, true, false)
    case 0xf0 => Uses(true, false, false)
    case 0xfa => Uses(true, false, true)
    case 0xfc => Uses(true, true, false)
    case _ => Uses(true, true, true)
  }

  function KernelBit(a: bool, b: bool, c: bool, mt: int): bool {
    match mt
    case 0x00 => false
    case 0x0a => !a && c
    case 0x2a => c && !(a && b)
    case 0x30 => a && !b
    case 0x3a => b != (a || (b != c))
    case 0x3c => a != b
    case 0x4a => c != (a && (b || c))
    case 0x6a => c != (a && b)
    case 0x8a => c && (!a || b)
    case 0x8c => b && (!a || c)
    case 0x9a => c != (a && !b)
    case 0xa8 => c && (a || b)
    case 0xaa => c
    case 0xb1 => !(a != (c || (a != b)))
    case 0xca => c != (a && (b != c))
    case 0xcc => b
    case 0xd8 => a != (c && (a != b))
    case 0xe2 => c != (b && (a != c))
    case 0xea => c || (a && b)
    case 0xf0 => a
    case 0xfa => a || c
    case 0xfc => a || b
    case _ => false
  }

  function KernelFunc(a: Word, b: Word, c: Word, mt: int): Word {
    seq(16, k requires 0 <= k < 16 => KernelBit(a[k], b[k], c[k], mt))
  }

  lemma KernelBit0(a: bool, b: bool, c: bool, a': bool, b': bool, c': bool, mt: int)
    requires mt in {0x00, 0x0a, 0x2a, 0x30, 0x3a, 0x3c, 0x4a, 0x6a}
    requires var u := KernelUses(mt); (u.a ==> a == a') && (u.b ==> b == b') && (u.c ==> c == c')
    ensures KernelBit(a, b, c, mt) == Selected(mt, Term(a', b', c'))
  {
  }

  lemma KernelBit1(a: bool, b: bool, c: bool, a': bool, b': bool, c': bool, mt: int)
    requires mt in {0x8a, 0x8c, 0x9a, 0xa8, 0xaa, 0xb1, 0xca}
    requires var u := KernelUses(mt); (u.a ==> a == a') && (u.b ==> b == b') && (u.c ==> c == c')
    ensures KernelBit(a, b, c, mt) == Selected(mt, Term(a', b', c'))
  {
  }

  lemma KernelBit2(a: bool, b: bool, c: bool, a': bool, b': bool, c': bool, mt: int)
    requires mt in {0xcc, 0xd8, 0xe2, 0xea, 0xf0, 0xfa, 0xfc}
    requires var u := KernelUses(mt); (u.a ==> a == a') && (u.b ==> b == b') && (u.c ==> c == c')
    ensures KernelBit(a, b, c, mt) == Selected(mt, Term(a', b', c'))
  {
  }

  // The kernel computes the function, and the sources it leaves out do not matter for it.
  lemma KernelBitIsRight(a: bool, b: bool, c: bool, a': bool, b': bool, c': bool, mt: int)
    requires HasKernel(mt)
    requires var u := KernelUses(mt); (u.a ==> a == a') && (u.b ==> b == b') && (u.c ==> c == c')
    ensures KernelBit(a, b, c, mt) == BitFunc(a', b', c', mt)
  {
    hide KernelUses, KernelBit, BitFunc, Selected, Term;
    BitFuncIsSelected(a', b', c', mt);
    if mt in {0x00, 0x0a, 0x2a, 0x30, 0x3a, 0x3c, 0x4a, 0x6a} {
      KernelBit0(a, b, c, a', b', c', mt);
    } else if mt in {0x8a, 0x8c, 0x9a, 0xa8, 0xaa, 0xb1, 0xca} {
      KernelBit1(a, b, c, a', b', c', mt);
    } else {
      KernelBit2(a, b, c, a', b', c', mt);
    }
  }

  lemma KernelIsRight(a: Word, b: Word, c: Word, a': Word, b': Word, c': Word, mt: int)
    requires HasKernel(mt)
    requires var u := KernelUses(mt); (u.a ==> a == a') && (u.b ==> b == b') && (u.c ==> c == c')
    ensures KernelFunc(a, b, c, mt) == BlitFunc(a', b', c', mt)
  {
    hide KernelUses, HasKernel, KernelBit, BitFunc;
    forall k | 0 <= k < 16
      ensures KernelBit(a[k], b[k], c[k], mt) == BitFunc(a'[k], b'[k], c'[k], mt)
    {
      KernelBitIsRight(a[k], b[k], c[k], a'[k], b'[k], c'[k], mt);
    }
  }

  // ---- barrel shifter ----

  // The low word of prev:data shifted right by s (ascending), and of data:prev shifted right by
  // 16 - s (descending).
  function HoldUp(prev: Word, data: Word, s: nat): Word
    requires s < 16
  {
    data[s..] + prev[..s]
  }

  function HoldDown(prev: Word, data: Word, s: nat): Word
    requires s < 16
  {
    prev[16 - s..] + data[..16 - s]
  }

  function Shifted(words: seq<Word>, prev: Word, s: nat, down: bool): seq<Word>
    requires s < 16
  {
    if words == [] then [] else
      var first := if down then HoldDown(prev, words[0], s) else HoldUp(prev, words[0], s);
      [first] + Shifted(words[1..], words[0], s, down)
  }

  function Reversed(w: seq<bool>): (r: seq<bool>)
    ensures |r| == |w|
  {
    seq(|w|, k requires 0 <= k < |w| => w[|w| - 1 - k])
  }

  // The words as one number: highest bit first going up, lowest bit first going down.
  function Bits(words: seq<Word>, down: bool): seq<bool> {
    if words == [] then [] else (if down then words[0] else Reversed(words[0])) + Bits(words[1..], down)
  }

  // What is left in the shifter: the last s bits of a word in processing order.
  function Left(prev: Word, s: nat, down: bool): (r: seq<bool>)
    requires s < 16
    ensures |r| == s
  {
    if down then prev[16 - s..] else Reversed(prev)[16 - s..]
  }

  lemma {:induction false} BitsLength(words: seq<Word>, down: bool)
    ensures |Bits(words, down)| == 16 * |words|
  {
    if words != [] { BitsLength(words[1..], down); }
  }

  lemma HoldBits(prev: Word, data: Word, s: nat, down: bool)
    requires s < 16
    ensures var w := if down then HoldDown(prev, data, s) else HoldUp(prev, data, s);
      (if down then w else Reversed(w)) == Left(prev, s, down) + (if down then data else Reversed(data))[..16 - s]
    ensures Left(data, s, down) == (if down then data else Reversed(data))[16 - s..]
  {
  }

  lemma Regroup(l: seq<bool>, b: seq<bool>, rest: seq<bool>, s: nat, n: nat)
    requires s <= 16 == |b| && |l| == s && |rest| == n
    ensures (l + b[..16 - s]) + (b[16 - s..] + rest)[..n] == (l + (b + rest))[..16 + n]
  {
  }

  // Across word and row boundaries the whole blit is one shift by s, the bits of prev entering.
  lemma {:induction false} BarrelShift(words: seq<Word>, prev: Word, s: nat, down: bool)
    requires s < 16
    ensures |Shifted(words, prev, s, down)| == |words| && |Bits(words, down)| == 16 * |words|
    ensures Bits(Shifted(words, prev, s, down), down) == (Left(prev, s, down) + Bits(words, down))[..16 * |words|]
  {
    hide HoldUp, HoldDown, Left;
    BitsLength(words, down);
    if words != [] {
      var w := words[0];
      var n := 16 * (|words| - 1);
      BarrelShift(words[1..], w, s, down);
      HoldBits(prev, w, s, down);
      var out := Shifted(words, prev, s, down);
      assert out[1..] == Shifted(words[1..], w, s, down);
      Regroup(Left(prev, s, down), if down then w else Reversed(w), Bits(words[1..], down), s, n);
      assert 16 + n == 16 * |words|;
    }
  }

  lemma LeftOfZero(s: nat, down: bool)
    requires s < 16
    ensures Left(ZERO, s, down) == seq(s, k => false)
  {
  }

  // ---- area fill ----

  // Serial fill: a bit is filled where the carry is set; every set source bit turns the carry over.
  function Fill(bits: seq<bool>, carry: bool, inclusive: bool): (r: (seq<bool>, bool))
    ensures |r.0| == |bits|
  {
    if bits == [] then ([], carry)
    else
      var rest := Fill(bits[1..], carry != bits[0], inclusive);
      ([if carry then inclusive || !bits[0] else bits[0]] + rest.0, rest.1)
  }

  // The parity of the bits, on top of the carry going in.
  function Carry(bits: seq<bool>, carry: bool): bool {
    if bits == [] then carry else Carry(bits[..|bits| - 1], carry) != bits[|bits| - 1]
  }

  lemma {:induction false} CarryFirst(bits: seq<bool>, carry: bool)
    requires bits != []
    ensures Carry(bits, carry) == Carry(bits[1..], carry != bits[0])
  {
    if |bits| > 1 {
      var n := |bits| - 1;
      CarryFirst(bits[..n], carry);
      assert bits[..n][1..] == bits[1..][..n - 1];
    } else {
      assert bits[..|bits| - 1] == [] && bits[1..] == [];
    }
  }

  // Each bit is its source bit xor (exclusive) or or (inclusive) the carry, which is the initial
  // carry xor the parity of all source bits before it.
  lemma {:induction false} FillAt(bits: seq<bool>, carry: bool, inclusive: bool, k: nat)
    requires k < |bits|
    ensures var c := Carry(bits[..k], carry);
      Fill(bits, carry, inclusive).0[k] == if inclusive then bits[k] || c else bits[k] != c
    ensures Fill(bits, carry, inclusive).1 == Carry(bits, carry)
  {
    CarryFirst(bits, carry);
    FillCarry(bits[1..], carry != bits[0], inclusive);
    if k > 0 {
      FillAt(bits[1..], carry != bits[0], inclusive, k - 1);
      assert bits[..k][1..] == bits[1..][..k - 1];
      CarryFirst(bits[..k], carry);
    }
  }

  lemma {:induction false} FillCarry(bits: seq<bool>, carry: bool, inclusive: bool)
    ensures Fill(bits, carry, inclusive).1 == Carry(bits, carry)
  {
    if bits != [] {
      FillCarry(bits[1..], carry != bits[0], inclusive);
      CarryFirst(bits, carry);
    }
  }

  function FillBit(bit: bool, carry: bool, inclusive: bool): bool { if carry then inclusive || !bit else bit }

  lemma FillCons(bits: seq<bool>, carry: bool, inclusive: bool)
    requires bits != []
    ensures var rest := Fill(bits[1..], carry != bits[0], inclusive);
      Fill(bits, carry, inclusive).0 == [FillBit(bits[0], carry, inclusive)] + rest.0
      && Fill(bits, carry, inclusive).1 == rest.1
  {
  }

  lemma FillEmpty(carry: bool, inclusive: bool)
    ensures Fill([], carry, inclusive) == ([], carry)
  {
  }

  // Filling can be done piece by piece.
  lemma {:induction false} FillConcat(x: seq<bool>, y: seq<bool>, carry: bool, inclusive: bool)
    ensures var f := Fill(x, carry, inclusive); var g := Fill(y, f.1, inclusive);
      Fill(x + y, carry, inclusive).0 == f.0 + g.0 && Fill(x + y, carry, inclusive).1 == g.1
  {
    hide Fill;
    if x == [] {
      assert x + y == y;
      FillEmpty(carry, inclusive);
    } else {
      var rest := carry != x[0];
      FillConcat(x[1..], y, rest, inclusive);
      assert (x + y)[1..] == x[1..] + y && (x + y)[0] == x[0];
      FillCons(x, carry, inclusive);
      FillCons(x + y, carry, inclusive);
      Associate(FillBit(x[0], carry, inclusive), Fill(x[1..], rest, inclusive).0,
                Fill(y, Fill(x[1..], rest, inclusive).1, inclusive).0);
    }
  }

  lemma Associate(h: bool, x: seq<bool>, y: seq<bool>)
    ensures ([h] + x) + y == [h] + (x + y)
  {
  }

  // ---- the fill table ----

  type Byte = b: seq<bool> | |b| == 8 witness seq(8, k => false)

  function ByteOf(d: nat, n: nat): (r: seq<bool>)
    ensures |r| == n
  {
    if n == 0 then [] else [d % 2 == 1] + ByteOf(d / 2, n - 1)
  }

  function ValueOf(b: seq<bool>): nat { if b == [] then 0 else (if b[0] then 1 else 0) + 2 * ValueOf(b[1..]) }

  lemma {:induction false} ByteOfValue(b: seq<bool>)
    ensures ByteOf(ValueOf(b), |b|) == b
  {
    if b != [] { ByteOfValue(b[1..]); }
  }

  lemma ValueIsSmall(b: Byte)
    ensures ValueOf(b) < 256
  {
    ValueBound(b[4..]);
    assert ValueOf(b) == (if b[0] then 1 else 0) + 2 * ValueOf(b[1..]);
    assert b[1..][1..] == b[2..] && b[2..][1..] == b[3..] && b[3..][1..] == b[4..];
    assert ValueOf(b[1..]) == (if b[1] then 1 else 0) + 2 * ValueOf(b[2..]);
    assert ValueOf(b[2..]) == (if b[2] then 1 else 0) + 2 * ValueOf(b[3..]);
    assert ValueOf(b[3..]) == (if b[3] then 1 else 0) + 2 * ValueOf(b[4..]);
  }

  lemma ValueBound(b: seq<bool>)
    requires |b| == 4
    ensures ValueOf(b) < 16
  {
    assert b[1..][1..] == b[2..] && b[2..][1..] == b[3..] && b[3..][1..] == [];
    assert ValueOf(b[1..]) == (if b[1] then 1 else 0) + 2 * ValueOf(b[2..]);
    assert ValueOf(b[2..]) == (if b[2] then 1 else 0) + 2 * ValueOf(b[3..]);
  }

  datatype FillEntry = FillEntry(data: Byte, carry: bool)

  // The entry for byte d with carry in (i odd) and in inclusive mode (i >= 2).
  function EntryFor(d: nat, i: nat): FillEntry {
    var f := Fill(ByteOf(d, 8), i % 2 == 1, i / 2 == 1);
    FillEntry(f.0, f.1)
  }

  ghost predicate IsFillTable(t: seq<FillEntry>) {
    |t| == 1024 && forall d, i | 0 <= d < 256 && 0 <= i < 4 :: t[4 * d + i] == EntryFor(d, i)
  }

  lemma FillStep(byte: Byte, k: nat, carry: bool, inclusive: bool)
    requires k < 8
    ensures var f := Fill(byte[..k], carry, inclusive);
      Fill(byte[..k + 1], carry, inclusive).0 == f.0 + [FillBit(byte[k], f.1, inclusive)]
      && Fill(byte[..k + 1], carry, inclusive).1 == (f.1 != byte[k])
  {
    FillConcat(byte[..k], [byte[k]], carry, inclusive);
    assert byte[..k + 1] == byte[..k] + [byte[k]];
    var f := Fill(byte[..k], carry, inclusive);
    FillCons([byte[k]], f.1, inclusive);
    FillEmpty(f.1 != byte[k], inclusive);
    assert [byte[k]][1..] == [];
  }

  // The byte worked on in place: what has been filled, then what is still as it was.
  lemma EntryStep(byte: Byte, data: Byte, done: seq<bool>, k: nat, x: bool)
    requires k < 8 && |done| == k && data == done + byte[k..]
    ensures data[k] == byte[k] && data[k := x] == (done + [x]) + byte[k + 1..]
  {
  }

  method MakeEntry(d: nat, i: nat) returns (e: FillEntry)
    requires d < 256 && i < 4
    ensures e == EntryFor(d, i)
  {
    hide Fill, ByteOf;
    ghost var byte: Byte := ByteOf(d, 8);
    ghost var fc0, mode := i % 2 == 1, i / 2 == 1;
    var fc := i % 2 == 1;
    var data: Byte := ByteOf(d, 8);
    var k := 0;
    FillNone(byte, fc0, mode);
    while k < 8
      invariant 0 <= k <= 8 && fc == Fill(byte[..k], fc0, mode).1
      invariant data == Fill(byte[..k], fc0, mode).0 + byte[k..]
    {
      FillStep(byte, k, fc0, mode);
      var bit := data[k];
      var next := if fc then (if i / 2 == 1 then true else !bit) else bit;
      EntryStep(byte, data, Fill(byte[..k], fc0, mode).0, k, next);
      data := data[k := next];
      fc := fc != bit;
      k := k + 1;
    }
    assert byte[..8] == byte && data == Fill(byte[..8], fc0, mode).0;
    e := FillEntry(data, fc);
  }

  lemma FillNone(byte: Byte, carry: bool, inclusive: bool)
    ensures Fill(byte[..0], carry, inclusive) == ([], carry) && byte[0..] == byte
  {
    assert byte[..0] == [];
  }

  // build_blitfilltable
  method BuildFillTable() returns (table: array<FillEntry>)
    ensures fresh(table) && IsFillTable(table[..])
  {
    hide EntryFor;
    table := new FillEntry[1024](k => FillEntry(seq(8, j => false), false));
    var d := 0;
    while d < 256
      invariant 0 <= d <= 256
      invariant forall e, j | 0 <= e < d && 0 <= j < 4 :: table[4 * e + j] == EntryFor(e, j)
    {
      var i := 0;
      while i < 4
        invariant 0 <= i <= 4
        invariant forall e, j | 0 <= e < d && 0 <= j < 4 :: table[4 * e + j] == EntryFor(e, j)
        invariant forall j | 0 <= j < i :: table[4 * d + j] == EntryFor(d, j)
      {
        var entry := MakeEntry(d, i);
        table[4 * d + i] := entry;
        i := i + 1;
      }
      d := d + 1;
    }
  }

  // The word filled through two lookups, low byte first.
  function LookUp(t: seq<FillEntry>, w: Word, carry: bool, inclusive: bool): (r: (Word, bool))
    requires IsFillTable(t)
    ensures r == Fill(w, carry, inclusive)
  {
    ByteLookUp(t, w[..8], carry, inclusive);
    var low := t[4 * ValueOf(w[..8]) + (if inclusive then 2 else 0) + (if carry then 1 else 0)];
    ByteLookUp(t, w[8..], low.carry, inclusive);
    var high := t[4 * ValueOf(w[8..]) + (if inclusive then 2 else 0) + (if low.carry then 1 else 0)];
    FillConcat(w[..8], w[8..], carry, inclusive);
    assert w == w[..8] + w[8..];
    (low.data + high.data, high.carry)
  }

  lemma ByteLookUp(t: seq<FillEntry>, b: Byte, carry: bool, inclusive: bool)
    requires IsFillTable(t)
    ensures var i := (if inclusive then 2 else 0) + (if carry then 1 else 0);
      ValueOf(b) < 256 && t[4 * ValueOf(b) + i] == FillEntry(Fill(b, carry, inclusive).0, Fill(b, carry, inclusive).1)
  {
    hide Fill;
    ValueIsSmall(b);
    ByteOfValue(b);
    var i := (if inclusive then 2 else 0) + (if carry then 1 else 0);
    assert t[4 * ValueOf(b) + i] == EntryFor(ValueOf(b), i);
  }
}
