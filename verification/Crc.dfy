// Cyclic redundancy checks: division of a message by a polynomial, bit by bit and by table.
// The registers of CRC-32 (section 8 of RFC 1952), of the sector EDC and of CRC-16 are instances.

module Crc {

  // A shift register. `half` moves it by one bit, `odd` is the bit that moves out, `place`
  // puts a byte where its first bit is the next to be compared with the one that moves out.
  datatype Register<!T> = Register(
    xor: (T, T) -> T, half: T -> T, odd: T -> bool, top: T -> bool, zero: T, poly: T, place: bv8 -> T)

  ghost predicate Commutes<T(!new)>(r: Register<T>) { forall a, b :: r.xor(a, b) == r.xor(b, a) }

  ghost predicate Associates<T(!new)>(r: Register<T>) {
    forall a, b, c :: r.xor(r.xor(a, b), c) == r.xor(a, r.xor(b, c))
  }

  ghost predicate Inverts<T(!new)>(r: Register<T>) { forall a :: r.xor(a, r.zero) == a && r.xor(a, a) == r.zero }

  ghost predicate Group<T(!new)>(r: Register<T>) { Commutes(r) && Associates(r) && Inverts(r) }

  ghost predicate LinearHalf<T(!new)>(r: Register<T>) {
    forall a, b :: r.half(r.xor(a, b)) == r.xor(r.half(a), r.half(b))
  }

  ghost predicate LinearBit<T(!new)>(r: Register<T>, bit: T -> bool) {
    forall a, b :: bit(r.xor(a, b)) == (bit(a) != bit(b))
  }

  ghost predicate Linear<T(!new)>(r: Register<T>) {
    LinearHalf(r) && LinearBit(r, r.odd) && LinearBit(r, r.top) && r.half(r.zero) == r.zero && !r.odd(r.zero)
  }

  // Nothing is lost in a step: the polynomial marks the place that a shift leaves free.
  ghost predicate Lossless<T(!new)>(r: Register<T>) {
    && (forall a :: !r.top(r.half(a))) && r.top(r.poly)
    && (forall a, b | r.half(a) == r.half(b) && r.odd(a) == r.odd(b) :: a == b)
    && (forall b, c | r.place(b) == r.place(c) :: b == c)
  }

  ghost predicate Lawful<T(!new)>(r: Register<T>) {
    Group(r) && Linear(r) && Lossless(r) && forall b :: Halves(r, r.place(b), 8) == r.zero
  }

  // ---- division bit by bit ----

  function Halves<T>(r: Register<T>, c: T, n: nat): T { if n == 0 then c else Halves(r, r.half(c), n - 1) }

  // One step of the division: the next message bit goes in.
  function FeedBit<T>(r: Register<T>, c: T, m: T): T {
    if r.odd(c) != r.odd(m) then r.xor(r.half(c), r.poly) else r.half(c)
  }

  function FeedBits<T>(r: Register<T>, c: T, m: T, n: nat): T {
    if n == 0 then c else FeedBits(r, FeedBit(r, c, m), r.half(m), n - 1)
  }

  function Feed<T>(r: Register<T>, c: T, b: bv8): T { FeedBits(r, c, r.place(b), 8) }

  // The register after a whole message.
  function Divide<T>(r: Register<T>, c: T, s: seq<bv8>): T {
    if s == [] then c else Feed(r, Divide(r, c, s[..|s| - 1]), s[|s| - 1])
  }

  // ---- division byte by byte ----

  function Shift<T>(r: Register<T>, c: T): T { if r.odd(c) then r.xor(r.half(c), r.poly) else r.half(c) }

  function Shifts<T>(r: Register<T>, c: T, n: nat): T { if n == 0 then c else Shifts(r, Shift(r, c), n - 1) }

  lemma XorSwap<T(!new)>(r: Register<T>, a: T, b: T, p: T)
    requires Group(r)
    ensures r.xor(r.xor(a, p), b) == r.xor(r.xor(a, b), p) == r.xor(a, r.xor(b, p))
    ensures r.xor(r.xor(a, p), r.xor(b, p)) == r.xor(a, b)
  {
    assert r.xor(r.xor(a, p), b) == r.xor(a, r.xor(p, b));
    assert r.xor(r.xor(a, b), p) == r.xor(a, r.xor(b, p));
    assert r.xor(r.xor(a, p), r.xor(b, p)) == r.xor(a, r.xor(p, r.xor(b, p)));
    assert r.xor(p, r.xor(p, b)) == r.xor(r.xor(p, p), b);
  }

  lemma Cancel<T(!new)>(r: Register<T>, a: T, b: T)
    requires Group(r)
    ensures r.xor(r.xor(a, b), b) == a
  {
    assert r.xor(r.xor(a, b), b) == r.xor(a, r.xor(b, b));
  }

  lemma XorBits<T(!new)>(r: Register<T>, c: T, d: T)
    requires Linear(r)
    ensures r.half(r.xor(c, d)) == r.xor(r.half(c), r.half(d))
    ensures r.odd(r.xor(c, d)) == (r.odd(c) != r.odd(d)) && r.top(r.xor(c, d)) == (r.top(c) != r.top(d))
  {
  }

  lemma ShiftXor<T(!new)>(r: Register<T>, c: T, d: T)
    requires Group(r) && Linear(r)
    ensures Shift(r, r.xor(c, d)) == r.xor(Shift(r, c), Shift(r, d))
  {
    hide Group, Linear;
    XorSwap(r, r.half(c), r.half(d), r.poly);
    XorBits(r, c, d);
  }

  lemma {:induction false} ShiftsXor<T(!new)>(r: Register<T>, c: T, d: T, n: nat)
    requires Group(r) && Linear(r)
    ensures Shifts(r, r.xor(c, d), n) == r.xor(Shifts(r, c, n), Shifts(r, d, n))
  {
    hide Shift, Group, Linear;
    if n > 0 {
      ShiftXor(r, c, d);
      ShiftsXor(r, Shift(r, c), Shift(r, d), n - 1);
    }
  }

  lemma {:induction false} HalvesXor<T(!new)>(r: Register<T>, c: T, d: T, n: nat)
    requires Linear(r)
    ensures Halves(r, r.xor(c, d), n) == r.xor(Halves(r, c, n), Halves(r, d, n))
  {
    if n > 0 {
      assert r.half(r.xor(c, d)) == r.xor(r.half(c), r.half(d));
      hide Linear;
      HalvesXor(r, r.half(c), r.half(d), n - 1);
    }
  }

  // The next n bits to move out are zero.
  predicate Clear<T>(r: Register<T>, c: T, n: nat) { n == 0 || (!r.odd(c) && Clear(r, r.half(c), n - 1)) }

  lemma {:induction false} ClearShifts<T>(r: Register<T>, c: T, n: nat)
    requires Clear(r, c, n)
    ensures Shifts(r, c, n) == Halves(r, c, n)
  {
    if n > 0 { ClearShifts(r, r.half(c), n - 1); }
  }

  lemma FeedStep<T(!new)>(r: Register<T>, y: T, m: T)
    requires Group(r) && Linear(r)
    ensures FeedBit(r, r.xor(y, m), m) == r.xor(Shift(r, y), r.half(m))
  {
    hide Group, Linear;
    XorSwap(r, r.half(y), r.half(m), r.poly);
    XorBits(r, y, m);
  }

  // Feeding n bits one at a time, or all of them beforehand.
  lemma {:induction false} FeedAhead<T(!new)>(r: Register<T>, y: T, m: T, n: nat)
    requires Group(r) && Linear(r)
    ensures FeedBits(r, r.xor(y, m), m, n) == r.xor(Shifts(r, y, n), Halves(r, m, n))
  {
    hide Shift, FeedBit, Group, Linear;
    if n > 0 {
      FeedStep(r, y, m);
      FeedAhead(r, Shift(r, y), r.half(m), n - 1);
    }
  }

  // A byte is fed by one xor and eight shifts.
  lemma FeedIsShifts<T(!new)>(r: Register<T>, c: T, b: bv8)
    requires Lawful(r)
    ensures Feed(r, c, b) == Shifts(r, r.xor(c, r.place(b)), 8)
  {
    hide Shifts, Halves, FeedBits, Linear, Lossless;
    var m := r.place(b);
    Cancel(r, c, m);
    FeedAhead(r, r.xor(c, m), m, 8);
  }

  // The step by table: what is looked up for the part of the register that moves out, xor the rest.
  lemma TableStep<T(!new)>(r: Register<T>, c: T, b: bv8, low: T, high: T)
    requires Lawful(r)
    requires r.xor(c, r.place(b)) == r.xor(low, high) && Clear(r, high, 8) && Halves(r, low, 8) == r.zero
    ensures Feed(r, c, b) == r.xor(Shifts(r, low, 8), Halves(r, c, 8))
  {
    hide Shifts, Halves, FeedBits, Linear, Lossless, Clear;
    FeedIsShifts(r, c, b);
    ShiftsXor(r, low, high, 8);
    ClearShifts(r, high, 8);
    HalvesXor(r, low, high, 8);
    HalvesXor(r, c, r.place(b), 8);
    assert r.xor(r.zero, Halves(r, high, 8)) == r.xor(Halves(r, high, 8), r.zero);
  }

  // ---- what the check detects ----

  lemma ShiftInjective<T(!new)>(r: Register<T>, c: T, d: T)
    requires Group(r) && Linear(r) && Lossless(r) && Shift(r, c) == Shift(r, d)
    ensures c == d
  {
    hide Group, Linear;
    XorBits(r, r.half(c), r.poly);
    XorBits(r, r.half(d), r.poly);
    Cancel(r, r.half(c), r.poly);
    Cancel(r, r.half(d), r.poly);
  }

  lemma {:induction false} ShiftsInjective<T(!new)>(r: Register<T>, c: T, d: T, n: nat)
    requires Group(r) && Linear(r) && Lossless(r) && Shifts(r, c, n) == Shifts(r, d, n)
    ensures c == d
  {
    hide Shift, Group, Linear, Lossless;
    if n > 0 {
      ShiftsInjective(r, Shift(r, c), Shift(r, d), n - 1);
      ShiftInjective(r, c, d);
    }
  }

  // A step by a byte is injective in the register, and in the byte.
  lemma FeedInjective<T(!new)>(r: Register<T>, c: T, d: T, a: bv8, b: bv8)
    requires Lawful(r) && Feed(r, c, a) == Feed(r, d, b)
    ensures a == b ==> c == d
    ensures c == d ==> a == b
  {
    hide Shifts, Halves, FeedBits, Linear, Feed;
    FeedIsShifts(r, c, a);
    FeedIsShifts(r, d, b);
    ShiftsInjective(r, r.xor(c, r.place(a)), r.xor(d, r.place(b)), 8);
    Cancel(r, c, r.place(a));
    Cancel(r, d, r.place(b));
    assert r.xor(c, r.place(a)) == r.xor(r.place(a), c) && r.xor(d, r.place(b)) == r.xor(r.place(b), d);
    Cancel(r, r.place(a), c);
    Cancel(r, r.place(b), d);
  }

  // Two messages of the same length that differ in exactly one byte leave different registers.
  lemma {:induction false} OneByteDetected<T(!new)>(r: Register<T>, c: T, s: seq<bv8>, t: seq<bv8>, k: nat)
    requires Lawful(r) && |s| == |t| && k < |s| && s[k] != t[k]
    requires forall i | 0 <= i < |s| && i != k :: s[i] == t[i]
    ensures Divide(r, c, s) != Divide(r, c, t)
  {
    hide Lawful, Feed;
    var n := |s| - 1;
    if k < n {
      OneByteDetected(r, c, s[..n], t[..n], k);
    } else {
      assert s[..n] == t[..n];
    }
    if Divide(r, c, s) == Divide(r, c, t) {
      FeedInjective(r, Divide(r, c, s[..n]), Divide(r, c, t[..n]), s[n], t[n]);
    }
  }

  // The message in two parts.
  lemma {:induction false} DivideConcat<T>(r: Register<T>, c: T, s: seq<bv8>, t: seq<bv8>)
    ensures Divide(r, c, s + t) == Divide(r, Divide(r, c, s), t)
  {
    hide Feed;
    if t == [] {
      assert s + t == s;
    } else {
      var n := |t| - 1;
      DivideConcat(r, c, s, t[..n]);
      assert (s + t)[..|s + t| - 1] == s + t[..n];
    }
  }

  // ---- the registers in use ----

  const POLY32: bv32 := 0xEDB8_8320
  const POLY16: bv16 := 0x1021

  lemma TwoHalves<T>(r: Register<T>, c: T, n: nat)
    ensures Halves(r, c, n + 2) == Halves(r, r.half(r.half(c)), n)
  {
  }

  lemma EightHalves<T>(r: Register<T>, c: T)
    ensures Halves(r, c, 8) == r.half(r.half(r.half(r.half(r.half(r.half(r.half(r.half(c))))))))
  {
    var c4 := r.half(r.half(r.half(r.half(c))));
    TwoHalves(r, c, 6);
    TwoHalves(r, r.half(r.half(c)), 4);
    TwoHalves(r, c4, 2);
    TwoHalves(r, r.half(r.half(c4)), 0);
  }

  // 32 bits, least significant bit first.
  function Xor32(a: bv32, b: bv32): bv32 { a ^ b }
  function Half32(a: bv32): bv32 { a >> 1 }
  predicate Odd32(a: bv32) { a & 1 == 1 }
  predicate Top32(a: bv32) { a >> 31 == 1 }
  function Place32(b: bv8): bv32 { b as bv32 }

  function Right32(poly: bv32): Register<bv32> { Register(Xor32, Half32, Odd32, Top32, 0, poly, Place32) }

  lemma Right32Comm(a: bv32, b: bv32)
    ensures Xor32(a, b) == Xor32(b, a)
  {
  }

  lemma Right32Assoc(a: bv32, b: bv32, c: bv32)
    ensures Xor32(Xor32(a, b), c) == Xor32(a, Xor32(b, c))
  {
  }

  lemma Right32Unit(a: bv32)
    ensures Xor32(a, 0) == a
  {
  }

  lemma Right32Self(a: bv32)
    ensures Xor32(a, a) == 0
  {
  }

  lemma Right32Half(a: bv32, b: bv32)
    ensures Half32(Xor32(a, b)) == Xor32(Half32(a), Half32(b))
  {
  }

  lemma Right32Odd(a: bv32, b: bv32)
    ensures Odd32(Xor32(a, b)) == (Odd32(a) != Odd32(b))
  {
  }

  lemma Right32Top(a: bv32, b: bv32)
    ensures Top32(Xor32(a, b)) == (Top32(a) != Top32(b))
  {
  }

  lemma Right32Free(a: bv32)
    ensures !Top32(Half32(a))
  {
  }

  lemma Right32Lossless(a: bv32, b: bv32)
    requires Half32(a) == Half32(b) && Odd32(a) == Odd32(b)
    ensures a == b
  {
  }

  lemma Right32Byte(b: bv8, c: bv8)
    requires Place32(b) == Place32(c)
    ensures b == c
  {
  }

  lemma Right32Gone(b: bv8)
    ensures Half32(Half32(Half32(Half32(Half32(Half32(Half32(Half32(Place32(b))))))))) == 0
  {
  }

  lemma Right32Constants(poly: bv32)
    requires poly >> 31 == 1
    ensures Half32(0) == 0 && !Odd32(0) && Top32(poly)
  {
  }

  lemma Right32Commutes(poly: bv32)
    ensures Commutes(Right32(poly))
  {
    hide Xor32;
    var r := Right32(poly);
    forall a, b
      ensures r.xor(a, b) == r.xor(b, a)
    {
      Right32Comm(a, b);
    }
  }

  lemma Right32Associates(poly: bv32)
    ensures Associates(Right32(poly))
  {
    hide Xor32;
    var r := Right32(poly);
    forall a, b, c
      ensures r.xor(r.xor(a, b), c) == r.xor(a, r.xor(b, c))
    {
      Right32Assoc(a, b, c);
    }
  }

  lemma Right32Inverts(poly: bv32)
    ensures Inverts(Right32(poly))
  {
    hide Xor32;
    var r := Right32(poly);
    forall a
      ensures r.xor(a, r.zero) == a && r.xor(a, a) == r.zero
    {
      Right32Unit(a);
      Right32Self(a);
    }
  }

  lemma Right32LinearHalf(poly: bv32)
    ensures LinearHalf(Right32(poly))
  {
    hide Xor32, Half32;
    var r := Right32(poly);
    forall a, b
      ensures r.half(r.xor(a, b)) == r.xor(r.half(a), r.half(b))
    {
      Right32Half(a, b);
    }
  }

  lemma Right32LinearOdd(poly: bv32)
    ensures LinearBit(Right32(poly), Right32(poly).odd)
  {
    hide Xor32, Odd32;
    var r := Right32(poly);
    forall a, b
      ensures r.odd(r.xor(a, b)) == (r.odd(a) != r.odd(b))
    {
      Right32Odd(a, b);
    }
  }

  lemma Right32LinearTop(poly: bv32)
    ensures LinearBit(Right32(poly), Right32(poly).top)
  {
    hide Xor32, Top32;
    var r := Right32(poly);
    forall a, b
      ensures r.top(r.xor(a, b)) == (r.top(a) != r.top(b))
    {
      Right32Top(a, b);
    }
  }

  lemma Right32Lawful(poly: bv32)
    requires poly >> 31 == 1
    ensures Lawful(Right32(poly))
  {
    hide Xor32, Half32, Odd32, Top32, Place32, LinearHalf, LinearBit, Commutes, Associates, Inverts;
    var r := Right32(poly);
    Right32Commutes(poly);
    Right32Associates(poly);
    Right32Inverts(poly);
    Right32LinearHalf(poly);
    Right32LinearOdd(poly);
    Right32LinearTop(poly);
    Right32Constants(poly);
    forall a, b | r.half(a) == r.half(b) && r.odd(a) == r.odd(b)
      ensures a == b
    {
      Right32Lossless(a, b);
    }
    forall a
      ensures !r.top(r.half(a))
    {
      Right32Free(a);
    }
    forall b, c | r.place(b) == r.place(c)
      ensures b == c
    {
      Right32Byte(b, c);
    }
    forall b
      ensures Halves(r, r.place(b), 8) == r.zero
    {
      Right32Gone(b);
      EightHalves(r, r.place(b));
    }
  }

  // 16 bits, most significant bit first.
  function Xor16(a: bv16, b: bv16): bv16 { a ^ b }
  function Half16(a: bv16): bv16 { a << 1 }
  predicate Odd16(a: bv16) { a >> 15 == 1 }
  predicate Top16(a: bv16) { a & 1 == 1 }
  function Place16(b: bv8): bv16 { (b as bv16) << 8 }

  function Left16(poly: bv16): Register<bv16> { Register(Xor16, Half16, Odd16, Top16, 0, poly, Place16) }

  lemma Left16Comm(a: bv16, b: bv16)
    ensures Xor16(a, b) == Xor16(b, a)
  {
  }

  lemma Left16Assoc(a: bv16, b: bv16, c: bv16)
    ensures Xor16(Xor16(a, b), c) == Xor16(a, Xor16(b, c))
  {
  }

  lemma Left16Unit(a: bv16)
    ensures Xor16(a, 0) == a
  {
  }

  lemma Left16Self(a: bv16)
    ensures Xor16(a, a) == 0
  {
  }

  lemma Left16Half(a: bv16, b: bv16)
    ensures Half16(Xor16(a, b)) == Xor16(Half16(a), Half16(b))
  {
  }

  lemma Left16Odd(a: bv16, b: bv16)
    ensures Odd16(Xor16(a, b)) == (Odd16(a) != Odd16(b))
  {
  }

  lemma Left16Top(a: bv16, b: bv16)
    ensures Top16(Xor16(a, b)) == (Top16(a) != Top16(b))
  {
  }

  lemma Left16Free(a: bv16)
    ensures !Top16(Half16(a))
  {
  }

  lemma Left16Lossless(a: bv16, b: bv16)
    requires Half16(a) == Half16(b) && Odd16(a) == Odd16(b)
    ensures a == b
  {
  }

  lemma Left16Byte(b: bv8, c: bv8)
    requires Place16(b) == Place16(c)
    ensures b == c
  {
  }

  lemma Left16Gone(b: bv8)
    ensures Half16(Half16(Half16(Half16(Half16(Half16(Half16(Half16(Place16(b))))))))) == 0
  {
  }

  lemma Left16Constants(poly: bv16)
    requires poly & 1 == 1
    ensures Half16(0) == 0 && !Odd16(0) && Top16(poly)
  {
  }

  lemma Left16Commutes(poly: bv16)
    ensures Commutes(Left16(poly))
  {
    hide Xor16;
    var r := Left16(poly);
    forall a, b
      ensures r.xor(a, b) == r.xor(b, a)
    {
      Left16Comm(a, b);
    }
  }

  lemma Left16Associates(poly: bv16)
    ensures Associates(Left16(poly))
  {
    hide Xor16;
    var r := Left16(poly);
    forall a, b, c
      ensures r.xor(r.xor(a, b), c) == r.xor(a, r.xor(b, c))
    {
      Left16Assoc(a, b, c);
    }
  }

  lemma Left16Inverts(poly: bv16)
    ensures Inverts(Left16(poly))
  {
    hide Xor16;
    var r := Left16(poly);
    forall a
      ensures r.xor(a, r.zero) == a && r.xor(a, a) == r.zero
    {
      Left16Unit(a);
      Left16Self(a);
    }
  }

  lemma Left16LinearHalf(poly: bv16)
    ensures LinearHalf(Left16(poly))
  {
    hide Xor16, Half16;
    var r := Left16(poly);
    forall a, b
      ensures r.half(r.xor(a, b)) == r.xor(r.half(a), r.half(b))
    {
      Left16Half(a, b);
    }
  }

  lemma Left16LinearOdd(poly: bv16)
    ensures LinearBit(Left16(poly), Left16(poly).odd)
  {
    hide Xor16, Odd16;
    var r := Left16(poly);
    forall a, b
      ensures r.odd(r.xor(a, b)) == (r.odd(a) != r.odd(b))
    {
      Left16Odd(a, b);
    }
  }

  lemma Left16LinearTop(poly: bv16)
    ensures LinearBit(Left16(poly), Left16(poly).top)
  {
    hide Xor16, Top16;
    var r := Left16(poly);
    forall a, b
      ensures r.top(r.xor(a, b)) == (r.top(a) != r.top(b))
    {
      Left16Top(a, b);
    }
  }

  lemma Left16Lawful(poly: bv16)
    requires poly & 1 == 1
    ensures Lawful(Left16(poly))
  {
    hide Xor16, Half16, Odd16, Top16, Place16, LinearHalf, LinearBit, Commutes, Associates, Inverts;
    var r := Left16(poly);
    Left16Commutes(poly);
    Left16Associates(poly);
    Left16Inverts(poly);
    Left16LinearHalf(poly);
    Left16LinearOdd(poly);
    Left16LinearTop(poly);
    Left16Constants(poly);
    forall a, b | r.half(a) == r.half(b) && r.odd(a) == r.odd(b)
      ensures a == b
    {
      Left16Lossless(a, b);
    }
    forall a
      ensures !r.top(r.half(a))
    {
      Left16Free(a);
    }
    forall b, c | r.place(b) == r.place(c)
      ensures b == c
    {
      Left16Byte(b, c);
    }
    forall b
      ensures Halves(r, r.place(b), 8) == r.zero
    {
      Left16Gone(b);
      EightHalves(r, r.place(b));
    }
  }

  // ---- tables ----

  lemma TwoClear<T>(r: Register<T>, c: T, n: nat)
    ensures Clear(r, c, n + 2) <==> !r.odd(c) && !r.odd(r.half(c)) && Clear(r, r.half(r.half(c)), n)
  {
  }

  lemma EightClear<T>(r: Register<T>, c: T)
    requires !r.odd(c) && !r.odd(r.half(c)) && !r.odd(r.half(r.half(c))) && !r.odd(r.half(r.half(r.half(c))))
    requires var d := r.half(r.half(r.half(r.half(c))));
      !r.odd(d) && !r.odd(r.half(d)) && !r.odd(r.half(r.half(d))) && !r.odd(r.half(r.half(r.half(d))))
    ensures Clear(r, c, 8)
  {
    var d := r.half(r.half(r.half(r.half(c))));
    TwoClear(r, c, 6);
    TwoClear(r, r.half(r.half(c)), 4);
    TwoClear(r, d, 2);
    TwoClear(r, r.half(r.half(d)), 0);
  }

  lemma Shift32(poly: bv32, c: bv32)
    ensures Shift(Right32(poly), c) == if c & 1 == 1 then (c >> 1) ^ poly else c >> 1
  {
  }

  // The part of the register that moves out with the next byte, and the part that stays.
  function Out32(c: bv32): bv32 { c & 0xff }
  function Stay32(c: bv32): bv32 { c & 0xffff_ff00 }

  lemma Parts32(c: bv32)
    ensures c == Xor32(Out32(c), Stay32(c))
  {
  }

  lemma Stays32(c: bv32)
    ensures !Odd32(Stay32(c))
    ensures !Odd32(Half32(Stay32(c)))
    ensures !Odd32(Half32(Half32(Stay32(c))))
    ensures !Odd32(Half32(Half32(Half32(Stay32(c)))))
    ensures !Odd32(Half32(Half32(Half32(Half32(Stay32(c))))))
    ensures !Odd32(Half32(Half32(Half32(Half32(Half32(Stay32(c)))))))
    ensures !Odd32(Half32(Half32(Half32(Half32(Half32(Half32(Stay32(c))))))))
    ensures !Odd32(Half32(Half32(Half32(Half32(Half32(Half32(Half32(Stay32(c)))))))))
  {
  }

  lemma StaysClear32(poly: bv32, c: bv32)
    ensures Clear(Right32(poly), Stay32(c), 8)
  {
    hide Half32, Odd32, Stay32;
    Stays32(c);
    EightClear(Right32(poly), Stay32(c));
  }

  lemma OutGone32(c: bv32)
    ensures Half32(Half32(Half32(Half32(Half32(Half32(Half32(Half32(Out32(c))))))))) == 0
  {
  }

  lemma Moved32(c: bv32)
    ensures Half32(Half32(Half32(Half32(Half32(Half32(Half32(Half32(c)))))))) == c >> 8
  {
  }

  // The step of the source: one lookup, one shift by eight, one xor.
  lemma Feed32(poly: bv32, c: bv32, b: bv8)
    requires Lawful(Right32(poly))
    ensures Feed(Right32(poly), c, b) == Xor32(Shifts(Right32(poly), Out32(Xor32(c, Place32(b))), 8), c >> 8)
  {
    hide Xor32, Half32, Odd32, Stay32, Out32, Place32, Lawful, Feed, Shifts, Clear;
    var r := Right32(poly);
    var x := Xor32(c, Place32(b));
    Parts32(x);
    StaysClear32(poly, x);
    OutGone32(x);
    EightHalves(r, Out32(x));
    Moved32(c);
    EightHalves(r, c);
    hide Halves;
    TableStep(r, c, b, Out32(x), Stay32(x));
  }

  lemma Shift16(poly: bv16, c: bv16)
    ensures Shift(Left16(poly), c) == if c >> 15 == 1 then (c << 1) ^ poly else c << 1
  {
  }

  // The part of the register that moves out with the next byte, and the part that stays.
  function Out16(c: bv16): bv16 { c & 0xff00 }
  function Stay16(c: bv16): bv16 { c & 0xff }

  lemma Parts16(c: bv16)
    ensures c == Xor16(Out16(c), Stay16(c))
  {
  }

  lemma Stays16(c: bv16)
    ensures !Odd16(Stay16(c))
    ensures !Odd16(Half16(Stay16(c)))
    ensures !Odd16(Half16(Half16(Stay16(c))))
    ensures !Odd16(Half16(Half16(Half16(Stay16(c)))))
    ensures !Odd16(Half16(Half16(Half16(Half16(Stay16(c))))))
    ensures !Odd16(Half16(Half16(Half16(Half16(Half16(Stay16(c)))))))
    ensures !Odd16(Half16(Half16(Half16(Half16(Half16(Half16(Stay16(c))))))))
    ensures !Odd16(Half16(Half16(Half16(Half16(Half16(Half16(Half16(Stay16(c)))))))))
  {
  }

  lemma StaysClear16(poly: bv16, c: bv16)
    ensures Clear(Left16(poly), Stay16(c), 8)
  {
    hide Half16, Odd16, Stay16;
    Stays16(c);
    EightClear(Left16(poly), Stay16(c));
  }

  lemma OutGone16(c: bv16)
    ensures Half16(Half16(Half16(Half16(Half16(Half16(Half16(Half16(Out16(c))))))))) == 0
  {
  }

  lemma Moved16(c: bv16)
    ensures Half16(Half16(Half16(Half16(Half16(Half16(Half16(Half16(c)))))))) == c << 8
  {
  }

  // The step of the source: one lookup, one shift by eight, one xor.
  lemma Feed16(poly: bv16, c: bv16, b: bv8)
    requires Lawful(Left16(poly))
    ensures Feed(Left16(poly), c, b) == Xor16(Shifts(Left16(poly), Out16(Xor16(c, Place16(b))), 8), c << 8)
  {
    hide Xor16, Half16, Odd16, Stay16, Out16, Place16, Lawful, Feed, Shifts, Clear;
    var r := Left16(poly);
    var x := Xor16(c, Place16(b));
    Parts16(x);
    StaysClear16(poly, x);
    OutGone16(x);
    EightHalves(r, Out16(x));
    Moved16(c);
    EightHalves(r, c);
    hide Halves;
    TableStep(r, c, b, Out16(x), Stay16(x));
  }

  // ---- crc32.c ----

  // What the two functions have to return.
  function Crc32(s: seq<bv8>): bv32 { Divide(Right32(POLY32), 0xffff_ffff, s) ^ 0xffff_ffff }

  function Crc16(s: seq<bv8>): bv16 { Divide(Left16(POLY16), 0xffff, s) }

  lemma Xor32Apart(a: bv32, b: bv32, m: bv32)
    requires a != b
    ensures a ^ m != b ^ m
  {
  }

  lemma LawfulPolynomials()
    ensures Lawful(Right32(POLY32)) && Lawful(Left16(POLY16))
  {
    hide Lawful;
    Right32Lawful(POLY32);
    Left16Lawful(POLY16);
  }

  // Two buffers of the same length that differ in exactly one byte never share a CRC.
  lemma OneByteSeen(s: seq<bv8>, t: seq<bv8>, k: nat)
    requires |s| == |t| && k < |s| && s[k] != t[k]
    requires forall i | 0 <= i < |s| && i != k :: s[i] == t[i]
    ensures Crc32(s) != Crc32(t) && Crc16(s) != Crc16(t)
  {
    hide Lawful, Divide;
    LawfulPolynomials();
    OneByteDetected(Right32(POLY32), 0xffff_ffff, s, t, k);
    OneByteDetected(Left16(POLY16), 0xffff, s, t, k);
    Xor32Apart(Divide(Right32(POLY32), 0xffff_ffff, s), Divide(Right32(POLY32), 0xffff_ffff, t), 0xffff_ffff);
  }

  // ---- check values ----

  lemma TwoShifts<T>(r: Register<T>, c: T, n: nat)
    ensures Shifts(r, c, n + 2) == Shifts(r, Shift(r, Shift(r, c)), n)
  {
    hide Shift;
  }

  lemma EightShifts<T>(r: Register<T>, c: T)
    ensures Shifts(r, c, 8) == Shift(r, Shift(r, Shift(r, Shift(r, Shift(r, Shift(r, Shift(r, Shift(r, c))))))))
  {
    hide Shift;
    var c4 := Shift(r, Shift(r, Shift(r, Shift(r, c))));
    TwoShifts(r, c, 6);
    TwoShifts(r, Shift(r, Shift(r, c)), 4);
    TwoShifts(r, c4, 2);
    TwoShifts(r, Shift(r, Shift(r, c4)), 0);
  }

  lemma OneMoreByte<T>(r: Register<T>, c: T, s: seq<bv8>, b: bv8)
    ensures Divide(r, c, s + [b]) == Feed(r, Divide(r, c, s), b)
  {
    assert (s + [b])[..|s + [b]| - 1] == s;
  }

  function Step32(c: bv32): bv32 { if c & 1 == 1 then (c >> 1) ^ 0xEDB8_8320 else c >> 1 }

  function Eight32(c: bv32): bv32 {
    Step32(Step32(Step32(Step32(Step32(Step32(Step32(Step32(c))))))))
  }

  lemma Steps32(c: bv32)
    ensures Shifts(Right32(POLY32), c, 8) == Eight32(c)
  {
    hide Shift, Shifts, Right32, Step32;
    var c1 := Step32(c);
    var c2 := Step32(c1);
    var c3 := Step32(c2);
    var c4 := Step32(c3);
    var c5 := Step32(c4);
    var c6 := Step32(c5);
    var c7 := Step32(c6);
    EightShifts(Right32(POLY32), c);
    StepIs32(c);
    StepIs32(c1);
    StepIs32(c2);
    StepIs32(c3);
    StepIs32(c4);
    StepIs32(c5);
    StepIs32(c6);
    StepIs32(c7);
  }

  lemma StepIs32(c: bv32)
    ensures Shift(Right32(POLY32), c) == Step32(c)
  {
    hide Shift, Right32;
    Shift32(POLY32, c);
  }

  // The first k bytes leave c, and the first k + 1 leave d.
  lemma Fed32(s: seq<bv8>, k: nat, c: bv32, d: bv32)
    requires k < |s| && Divide(Right32(POLY32), 0xffff_ffff, s[..k]) == c && Eight32(c ^ (s[k] as bv32)) == d
    ensures Divide(Right32(POLY32), 0xffff_ffff, s[..k + 1]) == d
  {
    hide Shifts, Eight32, Feed, Divide, Lawful;
    LawfulPolynomials();
    OneMoreByte(Right32(POLY32), 0xffff_ffff, s[..k], s[k]);
    assert s[..k] + [s[k]] == s[..k + 1];
    FeedIsShifts(Right32(POLY32), c, s[k]);
    Steps32(c ^ (s[k] as bv32));
  }

  function Step16(c: bv16): bv16 { if c >> 15 == 1 then (c << 1) ^ 0x1021 else c << 1 }

  function Eight16(c: bv16): bv16 {
    Step16(Step16(Step16(Step16(Step16(Step16(Step16(Step16(c))))))))
  }

  lemma Steps16(c: bv16)
    ensures Shifts(Left16(POLY16), c, 8) == Eight16(c)
  {
    hide Shift, Shifts, Left16, Step16;
    var c1 := Step16(c);
    var c2 := Step16(c1);
    var c3 := Step16(c2);
    var c4 := Step16(c3);
    var c5 := Step16(c4);
    var c6 := Step16(c5);
    var c7 := Step16(c6);
    EightShifts(Left16(POLY16), c);
    StepIs16(c);
    StepIs16(c1);
    StepIs16(c2);
    StepIs16(c3);
    StepIs16(c4);
    StepIs16(c5);
    StepIs16(c6);
    StepIs16(c7);
  }

  lemma StepIs16(c: bv16)
    ensures Shift(Left16(POLY16), c) == Step16(c)
  {
    hide Shift, Left16;
    Shift16(POLY16, c);
  }

  // The first k bytes leave c, and the first k + 1 leave d.
  lemma Fed16(s: seq<bv8>, k: nat, c: bv16, d: bv16)
    requires k < |s| && Divide(Left16(POLY16), 0xffff, s[..k]) == c && Eight16(c ^ ((s[k] as bv16) << 8)) == d
    ensures Divide(Left16(POLY16), 0xffff, s[..k + 1]) == d
  {
    hide Shifts, Eight16, Feed, Divide, Lawful;
    LawfulPolynomials();
    OneMoreByte(Left16(POLY16), 0xffff, s[..k], s[k]);
    assert s[..k] + [s[k]] == s[..k + 1];
    FeedIsShifts(Left16(POLY16), c, s[k]);
    Steps16(c ^ ((s[k] as bv16) << 8));
  }

  // The published check values, of the digits 1 to 9 as ASCII characters.
  lemma CheckValues()
    ensures var digits: seq<bv8> := [0x31, 0x32, 0x33, 0x34, 0x35, 0x36, 0x37, 0x38, 0x39];
      Crc32(digits) == 0xCBF4_3926 && Crc16(digits) == 0x29B1
  {
    hide Divide, Right32, Left16;
    Check32();
    Check16();
  }

  lemma Check32()
    ensures Divide(Right32(POLY32), 0xffff_ffff, [0x31, 0x32, 0x33, 0x34, 0x35, 0x36, 0x37, 0x38, 0x39]) == 0x340b_c6d9
  {
    hide Divide, Right32;
    var s: seq<bv8> := [0x31, 0x32, 0x33, 0x34, 0x35, 0x36, 0x37, 0x38, 0x39];
    NoBytes32();
    assert s[..0] == [];
    Fed32(s, 0, 0xffff_ffff, 0x7c23_1048);
    Fed32(s, 1, 0x7c23_1048, 0xb0ac_bb32);
    Fed32(s, 2, 0xb0ac_bb32, 0x77b7_9c2d);
    Fed32(s, 3, 0x77b7_9c2d, 0x641c_1f5c);
    Fed32(s, 4, 0x641c_1f5c, 0x340a_c5e3);
    Fed32(s, 5, 0x340a_c5e3, 0xf68d_2c9e);
    Fed32(s, 6, 0xf68d_2c9e, 0xaffc_9660);
    Fed32(s, 7, 0xaffc_9660, 0x651f_2550);
    Fed32(s, 8, 0x651f_2550, 0x340b_c6d9);
    assert s[..9] == s;
  }

  lemma NoBytes32()
    ensures Divide(Right32(POLY32), 0xffff_ffff, []) == 0xffff_ffff
  {
  }

  lemma Check16()
    ensures Divide(Left16(POLY16), 0xffff, [0x31, 0x32, 0x33, 0x34, 0x35, 0x36, 0x37, 0x38, 0x39]) == 0x29b1
  {
    hide Divide, Left16;
    var s: seq<bv8> := [0x31, 0x32, 0x33, 0x34, 0x35, 0x36, 0x37, 0x38, 0x39];
    NoBytes16();
    assert s[..0] == [];
    Fed16(s, 0, 0xffff, 0xc782);
    Fed16(s, 1, 0xc782, 0x3dba);
    Fed16(s, 2, 0x3dba, 0x5bce);
    Fed16(s, 3, 0x5bce, 0x5349);
    Fed16(s, 4, 0x5349, 0x4560);
    Fed16(s, 5, 0x4560, 0x2ef4);
    Fed16(s, 6, 0x2ef4, 0x7718);
    Fed16(s, 7, 0x7718, 0xa12b);
    Fed16(s, 8, 0xa12b, 0x29b1);
    assert s[..9] == s;
  }

  lemma NoBytes16()
    ensures Divide(Left16(POLY16), 0xffff, []) == 0xffff
  {
  }

  // A byte as a table index.
  function Entry32(n: int): bv32
    requires 0 <= n < 256
  {
    Shifts(Right32(POLY32), n as bv32, 8)
  }

  function Entry16(n: int): bv16
    requires 0 <= n < 256
  {
    Shifts(Left16(POLY16), (n as bv16) << 8, 8)
  }

  lemma Index32(x: bv32, b: bv8)
    ensures (x ^ (b as bv32)) & 0xff < 256
    ensures (x ^ (b as bv32)) & 0xff == Out32(Xor32(x, Place32(b)))
  {
  }

  lemma Small32(i: bv32)
    requires i < 256
    ensures i as int < 256 && (i as int) as bv32 == i
  {
  }

  lemma Index16(x: bv16, b: bv8)
    ensures ((x >> 8) ^ (b as bv16)) & 0xff < 256
    ensures (((x >> 8) ^ (b as bv16)) & 0xff) << 8 == Out16(Xor16(x, Place16(b)))
  {
  }

  lemma Small16(i: bv16)
    requires i < 256
    ensures i as int < 256 && (i as int) as bv16 == i
  {
  }

  class CrcTables {
    const table32: array<bv32>
    const table16: array<bv16>
    var ready: bool

    constructor ()
      ensures Valid() && !ready && fresh(table32) && fresh(table16)
    {
      table32, table16 := new bv32[256], new bv16[256];
      ready := false;
    }

    // The tables, once they have been made, hold what eight steps make of each byte.
    ghost predicate Valid()
      reads this, table32, table16
    {
      && table32.Length == 256 && table16.Length == 256
      && (ready ==> forall n | 0 <= n < 256 :: table32[n] == Entry32(n) && table16[n] == Entry16(n))
    }

    method MakeCrcTable()
      requires Valid()
      modifies this, table32, table16
      ensures Valid() && ready
    {
      var n := 0;
      while n < 256
        invariant 0 <= n <= 256
        invariant forall m | 0 <= m < n :: table32[m] == Entry32(m) && table16[m] == Entry16(m)
      {
        var c, w := MakeEntry(n);
        table32[n] := c;
        table16[n] := w;
        n := n + 1;
      }
      ready := true;
    }

    static method MakeEntry(n: int) returns (c: bv32, w: bv16)
      requires 0 <= n < 256
      ensures c == Entry32(n) && w == Entry16(n)
    {
      hide Shift, Right32, Left16;
      c := n as bv32;
      w := (n as bv16) << 8;
      var k := 0;
      while k < 8
        invariant 0 <= k <= 8
        invariant Shifts(Right32(POLY32), c, 8 - k) == Entry32(n)
        invariant Shifts(Left16(POLY16), w, 8 - k) == Entry16(n)
      {
        Shift32(POLY32, c);
        Shift16(POLY16, w);
        c := if c & 1 == 1 then (c >> 1) ^ POLY32 else c >> 1;
        w := if w >> 15 == 1 then (w << 1) ^ POLY16 else w << 1;
        k := k + 1;
      }
    }

    method GetCrc32(buf: array<bv8>, len: nat) returns (crc: bv32)
      requires Valid() && len <= buf.Length
      modifies this, table32, table16
      ensures Valid() && ready && crc == Crc32(buf[..len])
    {
      hide Lawful, Feed, Right32, Left16, Shifts, Entry16;
      if !ready { MakeCrcTable(); }
      LawfulPolynomials();
      crc := 0xffff_ffff;
      var i := 0;
      while i < len
        invariant 0 <= i <= len && Valid() && ready
        invariant crc == Divide(Right32(POLY32), 0xffff_ffff, buf[..i])
      {
        crc := Step32(crc, buf[i]);
        assert buf[..i + 1][..i] == buf[..i];
        i := i + 1;
      }
      crc := crc ^ 0xffff_ffff;
    }

    method Step32(c: bv32, b: bv8) returns (r: bv32)
      requires Valid() && ready && Lawful(Right32(POLY32))
      ensures r == Feed(Right32(POLY32), c, b)
    {
      hide Lawful, Feed, Right32, Left16, Shifts, Entry16, Out32;
      Feed32(POLY32, c, b);
      var i := (c ^ (b as bv32)) & 0xff;
      Index32(c, b);
      Small32(i);
      r := table32[i as int] ^ (c >> 8);
    }

    method GetCrc16(buf: array<bv8>, len: nat) returns (crc: bv16)
      requires Valid() && len <= buf.Length
      modifies this, table32, table16
      ensures Valid() && ready && crc == Crc16(buf[..len])
    {
      hide Lawful, Feed, Right32, Left16, Shifts, Entry32;
      if !ready { MakeCrcTable(); }
      LawfulPolynomials();
      crc := 0xffff;
      var i := 0;
      while i < len
        invariant 0 <= i <= len && Valid() && ready
        invariant crc == Divide(Left16(POLY16), 0xffff, buf[..i])
      {
        crc := Step16(crc, buf[i]);
        assert buf[..i + 1][..i] == buf[..i];
        i := i + 1;
      }
    }

    method Step16(c: bv16, b: bv8) returns (r: bv16)
      requires Valid() && ready && Lawful(Left16(POLY16))
      ensures r == Feed(Left16(POLY16), c, b)
    {
      hide Lawful, Feed, Right32, Left16, Shifts, Entry32, Out16;
      Feed16(POLY16, c, b);
      var i := ((c >> 8) ^ (b as bv16)) & 0xff;
      Index16(c, b);
      Small16(i);
      r := (c << 8) ^ table16[i as int];
    }
  }
}
