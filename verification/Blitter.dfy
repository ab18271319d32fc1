// The blitter's main loops: the generic one, with area fill, and the specialised kernels; both
// directions. Addresses and modulos are counted in words.

module Blitter {
  import opened BlitWord
  import opened Division

  datatype Config = Config(
    enA: bool, enB: bool, enC: bool, enD: bool,
    amod: int, bmod: int, cmod: int, dmod: int,
    h: nat, v: nat, down: bool,
    afwm: Word, alwm: Word, ashift: nat, bshift: nat,
    mt: int, filling: bool, inclusive: bool, fc0: bool)
  {
    predicate Valid() { h > 0 && ashift < 16 && bshift < 16 && 0 <= mt < 256 }

    function Dir(): int { if down then -1 else 1 }

    // blit_masktable: first and last word of each row are masked, by both if there is only one.
    function Mask(i: nat): Word { And(if i == 0 then afwm else ONES, if i + 1 == h then alwm else ONES) }

    function Hold(prev: Word, data: Word, s: nat): Word
      requires s < 16
    {
      if down then HoldDown(prev, data, s) else HoldUp(prev, data, s)
    }
  }

  // Chip memory answers at every address.
  type Memory = m: seq<Word> | |m| > 0 witness [ZERO]

  function Get(m: Memory, p: int): Word { m[p % |m|] }

  function Put(m: Memory, p: int, w: Word): (r: Memory)
    ensures |r| == |m|
  {
    m[p % |m| := w]
  }

  // ---- the generic loop ----

  // What the loop carries along. `ins` and `outs` list the masked words of A and the words of D so far.
  datatype Regs = Regs(
    ap: int, bp: int, cp: int, dp: int,
    preva: Word, prevb: Word, bhold: Word, adat: Word, bdat: Word, cdat: Word, ddat: Word,
    dodst: bool, dstp: int, nonzero: bool, fc: bool, ins: seq<Word>, outs: seq<Word>)

  datatype State = State(mem: Memory, r: Regs)

  function AWord(c: Config, s: State, i: nat): Word { And(if c.enA then Get(s.mem, s.r.ap) else s.r.adat, c.Mask(i)) }

  function BHold(c: Config, s: State): Word
    requires c.Valid()
  {
    if c.enB then c.Hold(s.r.prevb, Get(s.mem, s.r.bp), c.bshift) else s.r.bhold
  }

  function CWord(c: Config, s: State): Word { if c.enC then Get(s.mem, s.r.cp) else s.r.cdat }

  function Logic(c: Config, s: State, i: nat): Word
    requires c.Valid()
  {
    BlitFunc(c.Hold(s.r.preva, AWord(c, s, i), c.ashift), BHold(c, s), CWord(c, s), c.mt)
  }

  function Filled(c: Config, s: State, i: nat): (r: (Word, bool))
    requires c.Valid()
  {
    if c.filling then Fill(Logic(c, s, i), s.r.fc, c.inclusive) else (Logic(c, s, i), s.r.fc)
  }

  // One word: fetch, write the word before, combine.
  function GenWord(c: Config, i: nat, s: State): State
    requires c.Valid()
  {
    var r := s.r;
    var d := Filled(c, s, i);
    State(
      if r.dodst then Put(s.mem, r.dstp, r.ddat) else s.mem,
      Regs(
        if c.enA then r.ap + c.Dir() else r.ap, if c.enB then r.bp + c.Dir() else r.bp,
        if c.enC then r.cp + c.Dir() else r.cp, if c.enD then r.dp + c.Dir() else r.dp,
        AWord(c, s, i), if c.enB then Get(s.mem, r.bp) else r.prevb, BHold(c, s),
        if c.enA then Get(s.mem, r.ap) else r.adat,
        if c.enC && c.down then CWord(c, s) else if c.enB then Get(s.mem, r.bp) else r.bdat,
        CWord(c, s), d.0,
        r.dodst || c.enD, if c.enD then r.dp else r.dstp, r.nonzero || d.0 != ZERO, d.1,
        r.ins + [AWord(c, s, i)], r.outs + [d.0]))
  }

  function GenWords(c: Config, s: State, n: nat): State
    requires c.Valid()
  {
    if n == 0 then s else GenWord(c, n - 1, GenWords(c, s, n - 1))
  }

  function NextRow(c: Config, s: State): State {
    s.(r := s.r.(
      ap := if c.enA then s.r.ap + c.Dir() * c.amod else s.r.ap,
      bp := if c.enB then s.r.bp + c.Dir() * c.bmod else s.r.bp,
      cp := if c.enC then s.r.cp + c.Dir() * c.cmod else s.r.cp,
      dp := if c.enD then s.r.dp + c.Dir() * c.dmod else s.r.dp))
  }

  function GenRow(c: Config, s: State): State
    requires c.Valid()
  {
    NextRow(c, GenWords(c, s.(r := s.r.(fc := c.fc0)), c.h))
  }

  function GenRows(c: Config, s: State, m: nat): State
    requires c.Valid()
  {
    if m == 0 then s else GenRow(c, GenRows(c, s, m - 1))
  }

  function LastWrite(s: State): Memory { if s.r.dodst then Put(s.mem, s.r.dstp, s.r.ddat) else s.mem }

  // ---- a kernel ----

  datatype KRegs = KRegs(
    ap: int, bp: int, cp: int, dp: int,
    preva: Word, prevb: Word, srcb: Word, srcc: Word, adat: Word, dstd: Word,
    dodst: bool, dstp: int, totald: Word)

  datatype KState = KState(mem: Memory, k: KRegs)

  function Or(a: Word, b: Word): Word { seq(16, k requires 0 <= k < 16 => a[k] || b[k]) }

  function KLogic(c: Config, u: Uses, s: KState, i: nat): Word
    requires c.Valid()
  {
    var a := And(if c.enA then Get(s.mem, s.k.ap) else s.k.adat, c.Mask(i));
    KernelFunc(if u.a then c.Hold(s.k.preva, a, c.ashift) else ZERO,
               if u.b then (if c.enB then c.Hold(s.k.prevb, Get(s.mem, s.k.bp), c.bshift) else s.k.srcb) else ZERO,
               if u.c then (if c.enC then Get(s.mem, s.k.cp) else s.k.srcc) else ZERO,
               c.mt)
  }

  // One word; what concerns a source that the kernel leaves out stays as it is.
  function KerWord(c: Config, u: Uses, i: nat, s: KState): KState
    requires c.Valid()
  {
    var k := s.k;
    var d := KLogic(c, u, s, i);
    KState(
      if k.dodst then Put(s.mem, k.dstp, k.dstd) else s.mem,
      KRegs(
        if u.a && c.enA then k.ap + c.Dir() else k.ap, if u.b && c.enB then k.bp + c.Dir() else k.bp,
        if u.c && c.enC then k.cp + c.Dir() else k.cp, if c.enD then k.dp + c.Dir() else k.dp,
        if u.a then And(if c.enA then Get(s.mem, k.ap) else k.adat, c.Mask(i)) else k.preva,
        if u.b && c.enB then Get(s.mem, k.bp) else k.prevb,
        if u.b && c.enB then c.Hold(k.prevb, Get(s.mem, k.bp), c.bshift) else k.srcb,
        if u.c && c.enC then Get(s.mem, k.cp) else k.srcc,
        if u.a && c.enA then Get(s.mem, k.ap) else k.adat,
        d, k.dodst || c.enD, if c.enD then k.dp else k.dstp, Or(k.totald, d)))
  }

  function KerWords(c: Config, u: Uses, s: KState, n: nat): KState
    requires c.Valid()
  {
    if n == 0 then s else KerWord(c, u, n - 1, KerWords(c, u, s, n - 1))
  }

  function KerRow(c: Config, u: Uses, s: KState): KState
    requires c.Valid()
  {
    var t := KerWords(c, u, s, c.h);
    t.(k := t.k.(
      ap := if u.a && c.enA then t.k.ap + c.Dir() * c.amod else t.k.ap,
      bp := if u.b && c.enB then t.k.bp + c.Dir() * c.bmod else t.k.bp,
      cp := if u.c && c.enC then t.k.cp + c.Dir() * c.cmod else t.k.cp,
      dp := if c.enD then t.k.dp + c.Dir() * c.dmod else t.k.dp))
  }

  function KerRows(c: Config, u: Uses, s: KState, m: nat): KState
    requires c.Valid()
  {
    if m == 0 then s else KerRow(c, u, KerRows(c, u, s, m - 1))
  }

  function KLastWrite(s: KState): Memory { if s.k.dodst then Put(s.mem, s.k.dstp, s.k.dstd) else s.mem }

  // ---- a kernel refines the generic loop ----

  // The kernel has what the generic loop has, as far as it looks at it.
  ghost predicate Matches(c: Config, u: Uses, s: State, t: KState) {
    && s.mem == t.mem && s.r.dp == t.k.dp && s.r.dodst == t.k.dodst
    && (s.r.dodst ==> s.r.dstp == t.k.dstp && s.r.ddat == t.k.dstd)
    && (u.a ==> s.r.ap == t.k.ap && s.r.preva == t.k.preva && s.r.adat == t.k.adat)
    && (u.b ==> s.r.bp == t.k.bp && s.r.prevb == t.k.prevb && s.r.bhold == t.k.srcb)
    && (u.c ==> s.r.cp == t.k.cp && s.r.cdat == t.k.srcc)
    && (s.r.nonzero <==> t.k.totald != ZERO)
  }

  lemma OrZero(a: Word, b: Word)
    ensures Or(a, b) == ZERO <==> a == ZERO && b == ZERO
  {
    if Or(a, b) == ZERO {
      forall k | 0 <= k < 16
        ensures !a[k] && !b[k]
      {
        assert !Or(a, b)[k];
      }
      assert a == ZERO && b == ZERO;
    }
  }

  lemma SameLogic(c: Config, i: nat, s: State, t: KState)
    requires c.Valid() && !c.filling && HasKernel(c.mt) && Matches(c, KernelUses(c.mt), s, t)
    ensures Filled(c, s, i).0 == KLogic(c, KernelUses(c.mt), t, i)
  {
    hide BlitFunc, KernelFunc, HasKernel, KernelUses, HoldUp, HoldDown, And, Get;
    var u := KernelUses(c.mt);
    var a := And(if c.enA then Get(t.mem, t.k.ap) else t.k.adat, c.Mask(i));
    KernelIsRight(
      if u.a then c.Hold(t.k.preva, a, c.ashift) else ZERO,
      if u.b then (if c.enB then c.Hold(t.k.prevb, Get(t.mem, t.k.bp), c.bshift) else t.k.srcb) else ZERO,
      if u.c then (if c.enC then Get(t.mem, t.k.cp) else t.k.srcc) else ZERO,
      c.Hold(s.r.preva, AWord(c, s, i), c.ashift), BHold(c, s), CWord(c, s), c.mt);
  }

  lemma SameWord(c: Config, i: nat, s: State, t: KState)
    requires c.Valid() && !c.filling && HasKernel(c.mt) && Matches(c, KernelUses(c.mt), s, t)
    ensures Matches(c, KernelUses(c.mt), GenWord(c, i, s), KerWord(c, KernelUses(c.mt), i, t))
  {
    hide BlitFunc, KernelFunc, HasKernel, KernelUses, HoldUp, HoldDown, And, Get, Put, Or, Filled, KLogic, Config.Mask;
    SameLogic(c, i, s, t);
    OrZero(t.k.totald, KLogic(c, KernelUses(c.mt), t, i));
  }

  lemma {:induction false} SameWords(c: Config, s: State, t: KState, n: nat)
    requires c.Valid() && !c.filling && HasKernel(c.mt) && Matches(c, KernelUses(c.mt), s, t)
    ensures Matches(c, KernelUses(c.mt), GenWords(c, s, n), KerWords(c, KernelUses(c.mt), t, n))
  {
    hide GenWord, KerWord, HasKernel, KernelUses, Matches;
    if n > 0 {
      SameWords(c, s, t, n - 1);
      SameWord(c, n - 1, GenWords(c, s, n - 1), KerWords(c, KernelUses(c.mt), t, n - 1));
    }
  }

  lemma {:induction false} SameRows(c: Config, s: State, t: KState, m: nat)
    requires c.Valid() && !c.filling && HasKernel(c.mt) && Matches(c, KernelUses(c.mt), s, t)
    ensures Matches(c, KernelUses(c.mt), GenRows(c, s, m), KerRows(c, KernelUses(c.mt), t, m))
  {
    hide GenRow, KerRow, HasKernel, KernelUses, Matches;
    if m > 0 {
      SameRows(c, s, t, m - 1);
      SameRow(c, GenRows(c, s, m - 1), KerRows(c, KernelUses(c.mt), t, m - 1));
    }
  }

  lemma SameRow(c: Config, s: State, t: KState)
    requires c.Valid() && !c.filling && HasKernel(c.mt) && Matches(c, KernelUses(c.mt), s, t)
    ensures Matches(c, KernelUses(c.mt), GenRow(c, s), KerRow(c, KernelUses(c.mt), t))
  {
    hide GenWords, KerWords, HasKernel, KernelUses;
    SameWords(c, s.(r := s.r.(fc := c.fc0)), t, c.h);
  }

  // For every function that has a kernel, every channel mask, size, modulo, mask, shift, direction
  // and overlap: with fill off, both leave the same memory and agree on whether anything was set.
  lemma KernelRefinesGeneric(c: Config, s: State, t: KState)
    requires c.Valid() && !c.filling && HasKernel(c.mt) && Matches(c, KernelUses(c.mt), s, t)
    ensures var g, k := GenRows(c, s, c.v), KerRows(c, KernelUses(c.mt), t, c.v);
      LastWrite(g) == KLastWrite(k) && (g.r.nonzero <==> k.k.totald != ZERO)
  {
    hide GenRows, KerRows, HasKernel, KernelUses;
    SameRows(c, s, t, c.v);
  }

  // ---- where the pointers stop ----

  lemma {:induction false} WordPointers(c: Config, s: State, n: nat)
    requires c.Valid()
    ensures var r := GenWords(c, s, n).r;
      && r.ap == (if c.enA then s.r.ap + c.Dir() * n else s.r.ap)
      && r.bp == (if c.enB then s.r.bp + c.Dir() * n else s.r.bp)
      && r.cp == (if c.enC then s.r.cp + c.Dir() * n else s.r.cp)
      && r.dp == (if c.enD then s.r.dp + c.Dir() * n else s.r.dp)
  {
    hide Get, Put, Filled, AWord, BHold, CWord;
    if n > 0 { WordPointers(c, s, n - 1); }
  }

  function Span(c: Config, mod: int, m: nat): int { c.Dir() * ((c.h + mod) * m) }

  lemma SpanNext(c: Config, mod: int, m: nat)
    requires m > 0
    ensures Span(c, mod, m) == Span(c, mod, m - 1) + (c.Dir() * c.h + c.Dir() * mod)
  {
    assert (c.h + mod) * m == (c.h + mod) * (m - 1) + (c.h + mod);
  }

  lemma RowPointer(c: Config, s: State)
    requires c.Valid()
    ensures var r := GenRow(c, s).r;
      && r.ap == (if c.enA then s.r.ap + (c.Dir() * c.h + c.Dir() * c.amod) else s.r.ap)
      && r.bp == (if c.enB then s.r.bp + (c.Dir() * c.h + c.Dir() * c.bmod) else s.r.bp)
      && r.cp == (if c.enC then s.r.cp + (c.Dir() * c.h + c.Dir() * c.cmod) else s.r.cp)
      && r.dp == (if c.enD then s.r.dp + (c.Dir() * c.h + c.Dir() * c.dmod) else s.r.dp)
  {
    hide GenWords;
    WordPointers(c, s.(r := s.r.(fc := c.fc0)), c.h);
  }

  // The pointer updates made in advance are where the loop's own pointers come to stand.
  lemma {:induction false} RowPointers(c: Config, s: State, m: nat)
    requires c.Valid()
    ensures var r := GenRows(c, s, m).r;
      && r.ap == (if c.enA then s.r.ap + Span(c, c.amod, m) else s.r.ap)
      && r.bp == (if c.enB then s.r.bp + Span(c, c.bmod, m) else s.r.bp)
      && r.cp == (if c.enC then s.r.cp + Span(c, c.cmod, m) else s.r.cp)
      && r.dp == (if c.enD then s.r.dp + Span(c, c.dmod, m) else s.r.dp)
  {
    hide GenRow, Span;
    if m > 0 {
      RowPointers(c, s, m - 1);
      RowPointer(c, GenRows(c, s, m - 1));
      SpanNext(c, c.amod, m);
      SpanNext(c, c.bmod, m);
      SpanNext(c, c.cmod, m);
      SpanNext(c, c.dmod, m);
    } else {
      NoSpan(c, c.amod);
      NoSpan(c, c.bmod);
      NoSpan(c, c.cmod);
      NoSpan(c, c.dmod);
    }
  }

  lemma NoSpan(c: Config, mod: int)
    ensures Span(c, mod, 0) == 0
  {
  }

  // ---- shift and fill over the whole blit ----

  // What the loop adds to its two lists.
  lemma {:induction false} WordLists(c: Config, s: State, n: nat)
    requires c.Valid() && c.mt == 0xf0 && !c.filling
    requires |s.r.ins| == |s.r.outs|
    requires s.r.outs == Shifted(s.r.ins, ZERO, c.ashift, c.down) && s.r.preva == Last(s.r.ins)
    ensures var t := GenWords(c, s, n).r;
      && |t.ins| == |t.outs| == |s.r.ins| + n
      && t.outs == Shifted(t.ins, ZERO, c.ashift, c.down) && t.preva == Last(t.ins)
  {
    hide Get, Put, HoldUp, HoldDown, And, BlitFunc;
    if n > 0 {
      WordLists(c, s, n - 1);
      var t := GenWords(c, s, n - 1);
      PlainA(c.Hold(t.r.preva, AWord(c, t, n - 1), c.ashift), BHold(c, t), CWord(c, t));
      ShiftedMore(t.r.ins, AWord(c, t, n - 1), c);
    }
  }

  function Last(words: seq<Word>): Word { if words == [] then ZERO else words[|words| - 1] }

  lemma PlainA(a: Word, b: Word, c: Word)
    ensures BlitFunc(a, b, c, 0xf0) == a
  {
    hide BitFunc, Selected;
    forall k | 0 <= k < 16
      ensures BitFunc(a[k], b[k], c[k], 0xf0) == a[k]
    {
      BitFuncIsSelected(a[k], b[k], c[k], 0xf0);
      SelectsA(a[k], b[k], c[k]);
    }
  }

  lemma SelectsA(a: bool, b: bool, c: bool)
    ensures Selected(0xf0, Term(a, b, c)) == a
  {
  }

  lemma ShiftedMore(words: seq<Word>, w: Word, c: Config)
    requires c.Valid()
    ensures Shifted(words + [w], ZERO, c.ashift, c.down)
         == Shifted(words, ZERO, c.ashift, c.down) + [c.Hold(Last(words), w, c.ashift)]
  {
    ShiftedOneMore(words, w, ZERO, c);
  }

  lemma {:induction false} ShiftedOneMore(words: seq<Word>, w: Word, prev: Word, c: Config)
    requires c.Valid()
    ensures Shifted(words + [w], prev, c.ashift, c.down)
         == Shifted(words, prev, c.ashift, c.down) + [c.Hold(if words == [] then prev else Last(words), w, c.ashift)]
  {
    hide HoldUp, HoldDown;
    if words == [] {
      assert [w][1..] == [];
      assert words + [w] == [w];
    } else {
      ShiftedOneMore(words[1..], w, words[0], c);
      assert (words + [w])[1..] == words[1..] + [w];
    }
  }

  lemma {:induction false} RowLists(c: Config, s: State, m: nat)
    requires c.Valid() && c.mt == 0xf0 && !c.filling && s.r.ins == [] && s.r.outs == [] && s.r.preva == ZERO
    ensures var t := GenRows(c, s, m).r;
      && |t.ins| == |t.outs| == c.h * m
      && t.outs == Shifted(t.ins, ZERO, c.ashift, c.down) && t.preva == Last(t.ins)
  {
    hide GenWords, Shifted;
    if m > 0 {
      RowLists(c, s, m - 1);
      var s1 := GenRows(c, s, m - 1);
      WordLists(c, s1.(r := s1.r.(fc := c.fc0)), c.h);
      assert c.h * m == c.h * (m - 1) + c.h;
    } else {
      ShiftedNone(c);
    }
  }

  lemma ShiftedNone(c: Config)
    requires c.Valid()
    ensures Shifted([], ZERO, c.ashift, c.down) == []
  {
  }

  // A blit that copies A to D shifts all its words as one string of bits: the masked words of A
  // moved by ashift, with zeros coming in, over word and row boundaries, in either direction.
  lemma WholeBlitShifts(c: Config, s: State)
    requires c.Valid() && c.mt == 0xf0 && !c.filling && s.r.ins == [] && s.r.outs == [] && s.r.preva == ZERO
    ensures var t := GenRows(c, s, c.v).r;
      && |t.ins| == |t.outs| == c.h * c.v
      && Bits(t.outs, c.down) == (seq(c.ashift, k => false) + Bits(t.ins, c.down))[..|Bits(t.ins, c.down)|]
  {
    hide GenRows, Bits, Shifted, Left;
    RowLists(c, s, c.v);
    var t := GenRows(c, s, c.v).r;
    BarrelShift(t.ins, ZERO, c.ashift, c.down);
    LeftOfZero(c.ashift, c.down);
  }

  // ---- what memory holds ----

  // Where a channel is at the k-th word of the whole blit.
  function At(c: Config, base: int, mod: int, k: nat): int
    requires c.Valid()
  {
    base + c.Dir() * (k + mod * (k / c.h))
  }

  lemma AtRow(c: Config, base: int, mod: int, m: nat, i: nat)
    requires c.Valid() && i < c.h
    ensures At(c, base, mod, m * c.h + i) == base + Span(c, mod, m) + c.Dir() * i && (m * c.h + i) % c.h == i
  {
    Unique(m * c.h + i, c.h, m, i);
    assert (c.h + mod) * m == m * c.h + mod * m;
  }

  // Memory after the words of `outs` have been written one after the other, the first at dp.
  function Stores(c: Config, mem: Memory, dp: int, outs: seq<Word>): (r: Memory)
    requires c.Valid()
    ensures |r| == |mem|
  {
    if outs == [] then mem
    else
      var k := |outs| - 1;
      Put(Stores(c, mem, dp, outs[..k]), At(c, dp, c.dmod, k), outs[k])
  }

  // Word k is fetched before word k - 1 is written.
  function Seen(k: nat): nat { if k == 0 then 0 else k - 1 }

  // After k words: what has been fetched, what has been written, and what is still to be written.
  ghost predicate Trace(c: Config, s: State, t: State, k: nat)
    requires c.Valid()
  {
    && |t.r.ins| == |t.r.outs| == k
    && t.mem == Stores(c, s.mem, s.r.dp, t.r.outs[..Seen(k)])
    && t.r.dodst == (k > 0) && (k > 0 ==> t.r.dstp == At(c, s.r.dp, c.dmod, k - 1) && t.r.ddat == t.r.outs[k - 1])
    && forall j | 0 <= j < k :: t.r.ins[j]
         == And(Get(Stores(c, s.mem, s.r.dp, t.r.outs[..Seen(j)]), At(c, s.r.ap, c.amod, j)), c.Mask(j % c.h))
  }

  lemma TraceWord(c: Config, s: State, t: State, k: nat)
    requires c.Valid() && c.enA && c.enD && Trace(c, s, t, k)
    requires t.r.ap == At(c, s.r.ap, c.amod, k) && t.r.dp == At(c, s.r.dp, c.dmod, k)
    ensures Trace(c, s, GenWord(c, k % c.h, t), k + 1)
  {
    hide Get, Put, And, Filled, BHold, CWord, At;
    var u := GenWord(c, k % c.h, t);
    assert u.r.outs[..k] == t.r.outs;
    if k > 0 {
      assert t.r.outs[..k] == t.r.outs;
      assert t.r.outs[..k][..k - 1] == t.r.outs[..k - 1];
    } else {
      assert t.r.outs[..0] == t.r.outs;
    }
    forall j | 0 <= j < k + 1
      ensures u.r.ins[j] == And(Get(Stores(c, s.mem, s.r.dp, u.r.outs[..Seen(j)]), At(c, s.r.ap, c.amod, j)),
                                c.Mask(j % c.h))
    {
      assert u.r.outs[..Seen(j)] == t.r.outs[..Seen(j)];
    }
  }

  lemma {:induction false} TraceWords(c: Config, s: State, t: State, m: nat, n: nat)
    requires c.Valid() && c.enA && c.enD && n <= c.h && Trace(c, s, t, m * c.h)
    requires t.r.ap == s.r.ap + Span(c, c.amod, m) && t.r.dp == s.r.dp + Span(c, c.dmod, m)
    ensures Trace(c, s, GenWords(c, t, n), m * c.h + n)
  {
    hide GenWord, Trace, At, Span;
    if n > 0 {
      TraceWords(c, s, t, m, n - 1);
      WordPointers(c, t, n - 1);
      AtRow(c, s.r.ap, c.amod, m, n - 1);
      AtRow(c, s.r.dp, c.dmod, m, n - 1);
      TraceWord(c, s, GenWords(c, t, n - 1), m * c.h + (n - 1));
    }
  }

  // Every word fetched from A is the masked word that memory holds once all words but the last have been
  // written, and memory ends up with all words of D written in order: whatever the function, fill, the other
  // channels and the overlap.
  lemma {:induction false} BlitTrace(c: Config, s: State, m: nat)
    requires c.Valid() && c.enA && c.enD && s.r.ins == [] && s.r.outs == [] && !s.r.dodst
    ensures Trace(c, s, GenRows(c, s, m), m * c.h)
    ensures LastWrite(GenRows(c, s, m)) == Stores(c, s.mem, s.r.dp, GenRows(c, s, m).r.outs)
  {
    hide GenWords, At, Span, Put, Trace, Stores, LastWrite;
    if m > 0 {
      BlitTrace(c, s, m - 1);
      RowPointers(c, s, m - 1);
      var t := GenRows(c, s, m - 1);
      assert (m - 1) * c.h + c.h == m * c.h;
      TraceFill(c, s, t, (m - 1) * c.h);
      TraceWords(c, s, t.(r := t.r.(fc := c.fc0)), m - 1, c.h);
      TraceNext(c, s, GenWords(c, t.(r := t.r.(fc := c.fc0)), c.h), m * c.h);
    } else {
      TraceNone(c, s);
    }
    TraceDone(c, s, GenRows(c, s, m), m * c.h);
  }

  lemma TraceNone(c: Config, s: State)
    requires c.Valid() && s.r.ins == [] && s.r.outs == [] && !s.r.dodst
    ensures Trace(c, s, s, 0)
  {
  }

  lemma TraceFill(c: Config, s: State, t: State, k: nat)
    requires c.Valid() && Trace(c, s, t, k)
    ensures Trace(c, s, t.(r := t.r.(fc := c.fc0)), k)
  {
  }

  lemma TraceNext(c: Config, s: State, t: State, k: nat)
    requires c.Valid() && Trace(c, s, t, k)
    ensures Trace(c, s, NextRow(c, t), k)
  {
  }

  lemma TraceDone(c: Config, s: State, t: State, k: nat)
    requires c.Valid() && Trace(c, s, t, k)
    ensures LastWrite(t) == Stores(c, s.mem, s.r.dp, t.r.outs)
  {
    hide Put, At;
    if k > 0 {
      assert t.r.outs[..k] == t.r.outs;
    }
  }

  // The n addresses of D are all different, and none of them is one of A.
  ghost predicate Apart(c: Config, s: State, n: nat)
    requires c.Valid()
  {
    && (forall i, j | 0 <= i < j < n :: At(c, s.r.dp, c.dmod, i) % |s.mem| != At(c, s.r.dp, c.dmod, j) % |s.mem|)
    && (forall i, j | 0 <= i < n && 0 <= j < n ::
      At(c, s.r.dp, c.dmod, i) % |s.mem| != At(c, s.r.ap, c.amod, j) % |s.mem|)
  }

  // p is none of the first n addresses of D.
  ghost predicate Outside(c: Config, s: State, n: nat, p: int)
    requires c.Valid()
  {
    forall i | 0 <= i < n :: At(c, s.r.dp, c.dmod, i) % |s.mem| != p % |s.mem|
  }

  lemma {:induction false} StoresOutside(c: Config, s: State, outs: seq<Word>, p: int)
    requires c.Valid() && Outside(c, s, |outs|, p)
    ensures Get(Stores(c, s.mem, s.r.dp, outs), p) == Get(s.mem, p)
  {
    hide At;
    if outs != [] { StoresOutside(c, s, outs[..|outs| - 1], p); }
  }

  lemma {:induction false} StoresAt(c: Config, s: State, outs: seq<Word>, k: nat)
    requires c.Valid() && Apart(c, s, |outs|) && k < |outs|
    ensures Get(Stores(c, s.mem, s.r.dp, outs), At(c, s.r.dp, c.dmod, k)) == outs[k]
  {
    hide At;
    if k < |outs| - 1 { StoresAt(c, s, outs[..|outs| - 1], k); }
  }

  function AWords(c: Config, s: State, n: nat): seq<Word>
    requires c.Valid()
  {
    seq(n, k requires 0 <= k < n => MaskedWord(c, Get(s.mem, At(c, s.r.ap, c.amod, k)), k % c.h))
  }

  // Of the first word of a row only the bits of one mask are left, of the last one those of the other.
  function MaskedWord(c: Config, w: Word, i: nat): Word {
    seq(16, x requires 0 <= x < 16 => w[x] && (i == 0 ==> c.afwm[x]) && (i + 1 == c.h ==> c.alwm[x]))
  }

  lemma MaskIs(c: Config, w: Word, i: nat)
    ensures And(w, c.Mask(i)) == MaskedWord(c, w, i)
  {
  }

  function DWords(c: Config, s: State, mem: Memory, n: nat): seq<Word>
    requires c.Valid()
  {
    seq(n, k requires 0 <= k < n => Get(mem, At(c, s.r.dp, c.dmod, k)))
  }

  // In memory, then: the words at the places of D are those that the places of A held, masked and shifted
  // as one string of bits, and nothing else has changed.
  lemma CopyShifts(c: Config, s: State)
    requires c.Valid() && c.enA && c.enD && c.mt == 0xf0 && !c.filling
    requires s.r.ins == [] && s.r.outs == [] && !s.r.dodst && s.r.preva == ZERO && Apart(c, s, c.v * c.h)
    ensures var mem, from := LastWrite(GenRows(c, s, c.v)), Bits(AWords(c, s, c.v * c.h), c.down);
      && Bits(DWords(c, s, mem, c.v * c.h), c.down) == (seq(c.ashift, k => false) + from)[..|from|]
      && forall p | Outside(c, s, c.v * c.h, p) :: Get(mem, p) == Get(s.mem, p)
  {
    hide GenRows, Bits, At, Get, And, Apart, Outside, MaskedWord, Config.Mask;
    var t, n := GenRows(c, s, c.v), c.v * c.h;
    WholeBlitShifts(c, s);
    BlitTrace(c, s, c.v);
    var mem := LastWrite(t);
    forall k | 0 <= k < n
      ensures t.r.ins[k] == AWords(c, s, n)[k] && t.r.outs[k] == DWords(c, s, mem, n)[k]
    {
      FetchedApart(c, s, t.r.outs[..Seen(k)], n, k);
      MaskIs(c, Get(s.mem, At(c, s.r.ap, c.amod, k)), k % c.h);
      StoresAt(c, s, t.r.outs, k);
    }
    assert t.r.ins == AWords(c, s, n) && t.r.outs == DWords(c, s, mem, n);
    forall p | Outside(c, s, n, p)
      ensures Get(mem, p) == Get(s.mem, p)
    {
      StoresOutside(c, s, t.r.outs, p);
    }
  }

  lemma FetchedApart(c: Config, s: State, outs: seq<Word>, n: nat, k: nat)
    requires c.Valid() && Apart(c, s, n) && |outs| <= n && k < n
    ensures Get(Stores(c, s.mem, s.r.dp, outs), At(c, s.r.ap, c.amod, k)) == Get(s.mem, At(c, s.r.ap, c.amod, k))
  {
    hide At, Get;
    StoresOutside(c, s, outs, At(c, s.r.ap, c.amod, k));
  }

  // The bits of a list of words, lowest bit first.
  function Flat(words: seq<Word>): seq<bool> {
    if words == [] then [] else Flat(words[..|words| - 1]) + words[|words| - 1]
  }

  // The words before filling, over one row.
  function RowLogic(c: Config, s: State, n: nat): seq<Word>
    requires c.Valid()
  {
    if n == 0 then [] else RowLogic(c, s, n - 1) + [Logic(c, GenWords(c, s, n - 1), n - 1)]
  }

  lemma FlatMore(words: seq<Word>, w: Word)
    ensures Flat(words + [w]) == Flat(words) + w
  {
    assert (words + [w])[..|words + [w]| - 1] == words;
  }

  lemma GenFills(c: Config, i: nat, t: State)
    requires c.Valid() && c.filling
    ensures var f := Fill(Logic(c, t, i), t.r.fc, c.inclusive);
      GenWord(c, i, t).r.outs == t.r.outs + [f.0] && GenWord(c, i, t).r.fc == f.1
  {
    hide Logic, Fill, Get, Put, AWord, BHold, CWord;
  }

  // Over a row of any length the area fill treats the bits of all its words as one string.
  lemma {:induction false} RowFills(c: Config, s: State, n: nat)
    requires c.Valid() && c.filling && s.r.fc == c.fc0
    ensures var t, k := GenWords(c, s, n).r, |s.r.outs|;
      && |t.outs| == k + n && t.outs[..k] == s.r.outs
      && Flat(t.outs[k..]) == Fill(Flat(RowLogic(c, s, n)), c.fc0, c.inclusive).0
      && t.fc == Fill(Flat(RowLogic(c, s, n)), c.fc0, c.inclusive).1
  {
    hide GenWord, Logic, Fill, Flat;
    if n > 0 {
      RowFills(c, s, n - 1);
      var t, k := GenWords(c, s, n - 1), |s.r.outs|;
      var w := Logic(c, t, n - 1);
      var f := Fill(w, t.r.fc, c.inclusive).0;
      GenFills(c, n - 1, t);
      FillConcat(Flat(RowLogic(c, s, n - 1)), w, c.fc0, c.inclusive);
      FlatMore(RowLogic(c, s, n - 1), w);
      assert (t.r.outs + [f])[k..] == t.r.outs[k..] + [f];
      FlatMore(t.r.outs[k..], f);
    } else {
      FillEmpty(c.fc0, c.inclusive);
      FlatNone();
      assert s.r.outs[|s.r.outs|..] == [];
    }
  }

  lemma FlatNone()
    ensures Flat([]) == []
  {
  }

  // ---- the blitter itself ----

  // The registers after the fetches of one word.
  function Fetched(c: Config, i: nat, s: State): Regs
    requires c.Valid()
  {
    var r := s.r;
    r.(ap := if c.enA then r.ap + c.Dir() else r.ap, bp := if c.enB then r.bp + c.Dir() else r.bp,
       cp := if c.enC then r.cp + c.Dir() else r.cp,
       preva := AWord(c, s, i), prevb := if c.enB then Get(s.mem, r.bp) else r.prevb, bhold := BHold(c, s),
       adat := if c.enA then Get(s.mem, r.ap) else r.adat,
       bdat := if c.enC && c.down then CWord(c, s) else if c.enB then Get(s.mem, r.bp) else r.bdat,
       cdat := CWord(c, s))
  }

  lemma FetchedParts(c: Config, i: nat, s: State)
    requires c.Valid()
    ensures var t := Fetched(c, i, s);
      && t.preva == AWord(c, s, i) && t.bhold == BHold(c, s) && t.cdat == CWord(c, s)
      && t.dp == s.r.dp && t.ddat == s.r.ddat && t.dodst == s.r.dodst && t.dstp == s.r.dstp
      && t.nonzero == s.r.nonzero && t.fc == s.r.fc && t.ins == s.r.ins && t.outs == s.r.outs
  {
    hide Get, AWord, BHold, CWord;
  }

  // One word, from its fetches and its result.
  lemma GenWordIs(c: Config, i: nat, s: State, d: Word, fc: bool)
    requires c.Valid() && (d, fc) == Filled(c, s, i)
    ensures var t := Fetched(c, i, s);
      GenWord(c, i, s) == State(
        if t.dodst then Put(s.mem, t.dstp, t.ddat) else s.mem,
        t.(ddat := d, fc := fc, ins := t.ins + [t.preva], outs := t.outs + [d], nonzero := t.nonzero || d != ZERO,
           dodst := t.dodst || c.enD, dstp := if c.enD then t.dp else t.dstp,
           dp := if c.enD then t.dp + c.Dir() else t.dp))
  {
    hide Get, Put, AWord, BHold, CWord, Filled;
  }

  class Chip {
    const mem: array<Word>
    const fillTable: array<FillEntry>
    var apt: int
    var bpt: int
    var cpt: int
    var dpt: int
    var adat: Word
    var bdat: Word
    var cdat: Word
    var ddat: Word
    var bhold: Word
    var blitzero: bool

    ghost predicate Ready()
      reads fillTable
    {
      mem.Length > 0 && IsFillTable(fillTable[..])
    }

    constructor (size: nat)
      requires size > 0
      ensures Ready() && mem.Length == size && fresh(mem) && fresh(fillTable)
    {
      mem := new Word[size](k => ZERO);
      apt, bpt, cpt, dpt := 0, 0, 0, 0;
      adat, bdat, cdat, ddat, bhold := ZERO, ZERO, ZERO, ZERO, ZERO;
      blitzero := true;
      var t := BuildFillTable();
      fillTable := t;
    }

    // The state in which the loops begin, with pointers as they are before the blit.
    function Start(): State
      requires mem.Length > 0
      reads this, mem
    {
      State(mem[..],
            Regs(apt, bpt, cpt, dpt, ZERO, ZERO, bhold, adat, bdat, cdat, ddat, false, 0, false, false, [], []))
    }

    function KStart(): KState
      requires mem.Length > 0
      reads this, mem
    {
      KState(mem[..], KRegs(apt, bpt, cpt, dpt, ZERO, ZERO, bhold, cdat, adat, ZERO, false, 0, ZERO))
    }

    method Write(p: int, w: Word)
      requires mem.Length > 0
      modifies mem
      ensures mem[..] == Put(old(mem[..]), p, w)
    {
      mem[p % mem.Length] := w;
    }

    function Read(p: int): (w: Word)
      requires mem.Length > 0
      reads mem
      ensures w == Get(mem[..], p)
    {
      mem[p % mem.Length]
    }

    // The fetches of one word, and the value of A that goes into the shifter.
    method Fetch(c: Config, i: nat, r: Regs) returns (t: Regs, hold: Word)
      requires Ready() && c.Valid()
      ensures t == Fetched(c, i, State(mem[..], r))
      ensures hold == c.Hold(r.preva, AWord(c, State(mem[..], r), i), c.ashift)
    {
      hide Get, HoldUp, HoldDown, And;
      t := r;
      var a := t.adat;
      if c.enA {
        a := Read(t.ap);
        t := t.(adat := a, ap := t.ap + c.Dir());
      }
      a := And(a, c.Mask(i));
      hold := c.Hold(t.preva, a, c.ashift);
      t := t.(preva := a);
      if c.enB {
        var b := Read(t.bp);
        t := t.(bdat := b, bp := t.bp + c.Dir(), bhold := c.Hold(t.prevb, b, c.bshift), prevb := b);
      }
      if c.enC {
        var cd := Read(t.cp);
        t := t.(cdat := cd, cp := t.cp + c.Dir());
        if c.down { t := t.(bdat := cd); }
      }
    }

    // One word of the generic loop.
    method GenericWord(c: Config, i: nat, r: Regs) returns (t: Regs)
      requires Ready() && c.Valid()
      modifies mem
      ensures State(mem[..], t) == GenWord(c, i, State(old(mem[..]), r))
    {
      hide Get, Put, BlitFunc, Fill, AWord, Config.Mask, Config.Hold, BHold, CWord, IsFillTable, Fetched;
      ghost var s := State(mem[..], r);
      var hold;
      t, hold := Fetch(c, i, r);
      FetchedParts(c, i, s);
      if t.dodst { Write(t.dstp, t.ddat); }
      var d := BlitFunc(hold, t.bhold, t.cdat, c.mt);
      assert d == Logic(c, s, i);
      hide Logic;
      if c.filling {
        var f := LookUp(fillTable[..], d, t.fc, c.inclusive);
        d := f.0;
        t := t.(fc := f.1);
      }
      t := t.(ddat := d, ins := t.ins + [t.preva], outs := t.outs + [d]);
      if d != ZERO { t := t.(nonzero := true); }
      if c.enD {
        t := t.(dodst := true, dstp := t.dp, dp := t.dp + c.Dir());
      }
      GenWordIs(c, i, s, d, t.fc);
    }

    // One row of it.
    method GenericRow(c: Config, r: Regs) returns (t: Regs)
      requires Ready() && c.Valid()
      modifies mem
      ensures State(mem[..], t) == GenRow(c, State(old(mem[..]), r))
    {
      hide GenWord;
      t := r.(fc := c.fc0);
      ghost var s := State(mem[..], t);
      var i := 0;
      while i < c.h
        invariant 0 <= i <= c.h && State(mem[..], t) == GenWords(c, s, i)
      {
        t := GenericWord(c, i, t);
        i := i + 1;
      }
      t := NextRow(c, State(mem[..], t)).r;
    }

    // blitter_dofast and blitter_dofast_desc, where no kernel is used.
    method Generic(c: Config)
      requires Ready() && c.Valid()
      modifies mem, this`adat, this`bdat, this`cdat, this`ddat, this`bhold, this`blitzero
      ensures var g := GenRows(c, old(Start()), c.v);
        && mem[..] == LastWrite(g) && blitzero == (old(blitzero) && !g.r.nonzero)
        && adat == g.r.adat && bdat == g.r.bdat && cdat == g.r.cdat && ddat == g.r.ddat && bhold == g.r.bhold
    {
      hide GenRow, LastWrite;
      ghost var s0 := Start();
      var r := Start().r;
      var j := 0;
      while j < c.v
        invariant 0 <= j <= c.v && State(mem[..], r) == GenRows(c, s0, j)
        modifies mem
      {
        r := GenericRow(c, r);
        j := j + 1;
      }
      LastWriteIs(State(mem[..], r));
      Finish(r.dodst, r.dstp, r.ddat);
      adat, bdat, cdat, ddat, bhold := r.adat, r.bdat, r.cdat, r.ddat, r.bhold;
      if r.nonzero { blitzero := false; }
    }

    method Finish(dodst: bool, dstp: int, d: Word)
      requires mem.Length > 0
      modifies mem
      ensures mem[..] == if dodst then Put(old(mem[..]), dstp, d) else old(mem[..])
    {
      if dodst { Write(dstp, d); }
    }

    // One word of a kernel; what concerns a source that it leaves out is not in its text.
    method KernelWord(c: Config, u: Uses, i: nat, k: KRegs) returns (t: KRegs)
      requires Ready() && c.Valid()
      modifies mem
      ensures KState(mem[..], t) == KerWord(c, u, i, KState(old(mem[..]), k))
    {
      hide Get, Put, HoldUp, HoldDown, And, KernelFunc, Or, Config.Mask, Config.Hold, IsFillTable;
      ghost var s := KState(mem[..], k);
      t := k;
      if u.c && c.enC {
        t := t.(srcc := Read(t.cp), cp := t.cp + c.Dir());
      }
      if u.b && c.enB {
        var b := Read(t.bp);
        t := t.(bp := t.bp + c.Dir(), srcb := c.Hold(t.prevb, b, c.bshift), prevb := b);
      }
      var srca := ZERO;
      if u.a {
        if c.enA {
          t := t.(adat := Read(t.ap), ap := t.ap + c.Dir());
        }
        var a := And(t.adat, c.Mask(i));
        srca := c.Hold(t.preva, a, c.ashift);
        t := t.(preva := a);
      }
      if t.dodst { Write(t.dstp, t.dstd); }
      var d := KernelFunc(srca, if u.b then t.srcb else ZERO, if u.c then t.srcc else ZERO, c.mt);
      assert d == KLogic(c, u, s, i);
      t := t.(dstd := d, totald := Or(t.totald, d));
      if c.enD {
        t := t.(dodst := true, dstp := t.dp, dp := t.dp + c.Dir());
      }
    }

    // One row of it.
    method KernelRow(c: Config, u: Uses, k: KRegs) returns (t: KRegs)
      requires Ready() && c.Valid()
      modifies mem
      ensures KState(mem[..], t) == KerRow(c, u, KState(old(mem[..]), k))
    {
      hide KerWord;
      t := k;
      ghost var s := KState(mem[..], k);
      var i := 0;
      while i < c.h
        invariant 0 <= i <= c.h && KState(mem[..], t) == KerWords(c, u, s, i)
      {
        t := KernelWord(c, u, i, t);
        i := i + 1;
      }
      if u.a && c.enA { t := t.(ap := t.ap + c.Dir() * c.amod); }
      if u.b && c.enB { t := t.(bp := t.bp + c.Dir() * c.bmod); }
      if u.c && c.enC { t := t.(cp := t.cp + c.Dir() * c.cmod); }
      if c.enD { t := t.(dp := t.dp + c.Dir() * c.dmod); }
    }

    // blitdofast_XX and blitdofast_desc_XX
    method Kernel(c: Config, u: Uses)
      requires Ready() && c.Valid()
      modifies mem, this`adat, this`cdat, this`bhold, this`blitzero
      ensures var k := KerRows(c, u, old(KStart()), c.v);
        && mem[..] == KLastWrite(k) && blitzero == (old(blitzero) && k.k.totald == ZERO)
        && adat == k.k.adat && cdat == k.k.srcc && bhold == k.k.srcb
    {
      hide KerRow, KLastWrite;
      ghost var s0 := KStart();
      var k := KStart().k;
      var j := 0;
      while j < c.v
        invariant 0 <= j <= c.v && KState(mem[..], k) == KerRows(c, u, s0, j)
        modifies mem
      {
        k := KernelRow(c, u, k);
        j := j + 1;
      }
      KLastWriteIs(KState(mem[..], k));
      Finish(k.dodst, k.dstp, k.dstd);
      adat, cdat, bhold := k.adat, k.srcc, k.srcb;
      if k.totald != ZERO { blitzero := false; }
    }

    // A blit. Whichever path it takes, memory, the zero flag and the pointers afterwards are those
    // of the generic loop.
    method DoFast(c: Config)
      requires Ready() && c.Valid()
      modifies mem, this
      ensures var g := GenRows(c, old(Start()), c.v);
        && mem[..] == LastWrite(g) && blitzero == (old(blitzero) && !g.r.nonzero)
        && apt == g.r.ap && bpt == g.r.bp && cpt == g.r.cp && dpt == g.r.dp
    {
      hide GenRows, KerRows, LastWrite, KLastWrite, HasKernel, KernelUses;
      RowPointers(c, Start(), c.v);
      ghost var s, t := Start(), KStart();
      if HasKernel(c.mt) && !c.filling {
        KernelRefinesGeneric(c, s, t);
        Kernel(c, KernelUses(c.mt));
      } else {
        Generic(c);
      }
      if c.enA { apt := apt + Span(c, c.amod, c.v); }
      if c.enB { bpt := bpt + Span(c, c.bmod, c.v); }
      if c.enC { cpt := cpt + Span(c, c.cmod, c.v); }
      if c.enD { dpt := dpt + Span(c, c.dmod, c.v); }
    }
  }

  lemma LastWriteIs(s: State)
    ensures LastWrite(s) == if s.r.dodst then Put(s.mem, s.r.dstp, s.r.ddat) else s.mem
  {
  }

  lemma KLastWriteIs(s: KState)
    ensures KLastWrite(s) == if s.k.dodst then Put(s.mem, s.k.dstp, s.k.dstd) else s.mem
  {
  }
}
