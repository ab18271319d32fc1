// What a blit does to memory, bit by bit: each bit of D is the selected function of one bit of A, one of B
// and one of C, which lie where the masks, the shifts and the pointers put them.

module BlitMemory {
  import opened BlitWord
  import opened Blitter
  import opened Division

  // ---- the words that go into the logic, in terms of memory before the blit ----

  function AData(c: Config, s: State, k: nat): Word
    requires c.Valid()
  {
    if c.enA then Get(s.mem, At(c, s.r.ap, c.amod, k)) else s.r.adat
  }

  function Masked(c: Config, s: State, k: nat): Word
    requires c.Valid()
  {
    And(AData(c, s, k), c.Mask(k % c.h))
  }

  function AIn(c: Config, s: State, k: nat): Word
    requires c.Valid()
  {
    c.Hold(if k == 0 then ZERO else Masked(c, s, k - 1), Masked(c, s, k), c.ashift)
  }

  function BData(c: Config, s: State, k: nat): Word
    requires c.Valid()
  {
    Get(s.mem, At(c, s.r.bp, c.bmod, k))
  }

  function BIn(c: Config, s: State, k: nat): Word
    requires c.Valid()
  {
    if c.enB then c.Hold(if k == 0 then ZERO else BData(c, s, k - 1), BData(c, s, k), c.bshift) else s.r.bhold
  }

  function CIn(c: Config, s: State, k: nat): Word
    requires c.Valid()
  {
    if c.enC then Get(s.mem, At(c, s.r.cp, c.cmod, k)) else s.r.cdat
  }

  function DOut(c: Config, s: State, k: nat): Word
    requires c.Valid()
  {
    BlitFunc(AIn(c, s, k), BIn(c, s, k), CIn(c, s, k), c.mt)
  }

  // None of the n addresses of D is one of the n addresses of this channel.
  ghost predicate ApartFrom(c: Config, s: State, n: nat, base: int, mod: int)
    requires c.Valid()
  {
    forall j | 0 <= j < n :: Outside(c, s, n, At(c, base, mod, j))
  }

  // The places of D are all different and none of them is a place of a channel that is read.
  ghost predicate AllApart(c: Config, s: State, n: nat)
    requires c.Valid()
  {
    && (forall i, j | 0 <= i < j < n :: At(c, s.r.dp, c.dmod, i) % |s.mem| != At(c, s.r.dp, c.dmod, j) % |s.mem|)
    && (c.enA ==> ApartFrom(c, s, n, s.r.ap, c.amod))
    && (c.enB ==> ApartFrom(c, s, n, s.r.bp, c.bmod))
    && (c.enC ==> ApartFrom(c, s, n, s.r.cp, c.cmod))
  }

  // ---- the loop reads them ----

  // Before the k-th word: what is carried along, what has been written, and what is still to be written.
  ghost predicate Inputs(c: Config, s: State, t: State, k: nat)
    requires c.Valid()
  {
    && |t.r.outs| == k && t.mem == Stores(c, s.mem, s.r.dp, t.r.outs[..Seen(k)])
    && t.r.dodst == (k > 0) && (k > 0 ==> t.r.dstp == At(c, s.r.dp, c.dmod, k - 1) && t.r.ddat == t.r.outs[k - 1])
    && t.r.preva == (if k == 0 then ZERO else Masked(c, s, k - 1))
    && (if c.enB then t.r.prevb == (if k == 0 then ZERO else BData(c, s, k - 1)) else t.r.bhold == s.r.bhold)
    && (!c.enA ==> t.r.adat == s.r.adat) && (!c.enC ==> t.r.cdat == s.r.cdat)
  }

  ghost predicate PointersAt(c: Config, s: State, t: State, k: nat)
    requires c.Valid()
  {
    && (c.enA ==> t.r.ap == At(c, s.r.ap, c.amod, k)) && (c.enB ==> t.r.bp == At(c, s.r.bp, c.bmod, k))
    && (c.enC ==> t.r.cp == At(c, s.r.cp, c.cmod, k)) && (c.enD ==> t.r.dp == At(c, s.r.dp, c.dmod, k))
  }

  lemma ReadApart(c: Config, s: State, outs: seq<Word>, n: nat, base: int, mod: int, k: nat)
    requires c.Valid() && ApartFrom(c, s, n, base, mod) && |outs| <= n && k < n
    ensures Get(Stores(c, s.mem, s.r.dp, outs), At(c, base, mod, k)) == Get(s.mem, At(c, base, mod, k))
  {
    hide At, Get;
    StoresOutside(c, s, outs, At(c, base, mod, k));
  }

  lemma LogicIs(c: Config, s: State, t: State, n: nat, k: nat)
    requires c.Valid() && AllApart(c, s, n) && k < n && Inputs(c, s, t, k) && PointersAt(c, s, t, k)
    ensures AWord(c, t, k % c.h) == Masked(c, s, k) && Logic(c, t, k % c.h) == DOut(c, s, k)
    ensures c.enB ==> Get(t.mem, t.r.bp) == BData(c, s, k)
  {
    hide At, Get, Stores, And, BlitFunc, Config.Hold, Config.Mask, ApartFrom;
    var outs := t.r.outs[..Seen(k)];
    if c.enA { ReadApart(c, s, outs, n, s.r.ap, c.amod, k); }
    if c.enB { ReadApart(c, s, outs, n, s.r.bp, c.bmod, k); }
    if c.enC { ReadApart(c, s, outs, n, s.r.cp, c.cmod, k); }
  }

  lemma InputsWord(c: Config, s: State, t: State, n: nat, k: nat)
    requires c.Valid() && c.enD && AllApart(c, s, n) && k < n && Inputs(c, s, t, k) && PointersAt(c, s, t, k)
    ensures Inputs(c, s, GenWord(c, k % c.h, t), k + 1)
  {
    hide At, Get, Put, And, BlitFunc, Config.Hold, Config.Mask, AllApart, Filled, Masked, BData, AWord, BHold, CWord,
         Logic;
    LogicIs(c, s, t, n, k);
    var u := GenWord(c, k % c.h, t);
    WordKeeps(c, k % c.h, t);
    assert u.r.outs[..k] == t.r.outs;
    if k > 0 {
      assert t.r.outs[..k] == t.r.outs;
      assert t.r.outs[..k][..k - 1] == t.r.outs[..k - 1];
    } else {
      assert t.r.outs[..0] == t.r.outs;
    }
  }

  lemma WordKeeps(c: Config, i: nat, t: State)
    requires c.Valid()
    ensures !c.enB ==> GenWord(c, i, t).r.bhold == t.r.bhold
    ensures !c.enC ==> GenWord(c, i, t).r.cdat == t.r.cdat
    ensures !c.enA ==> GenWord(c, i, t).r.adat == t.r.adat
    ensures GenWord(c, i, t).r.preva == AWord(c, t, i) && (c.enB ==> GenWord(c, i, t).r.prevb == Get(t.mem, t.r.bp))
  {
    hide Get, Put, Filled, AWord;
  }

  // The words before filling, of row m.
  function DRow(c: Config, s: State, m: nat, n: nat): seq<Word>
    requires c.Valid()
  {
    seq<Word>(n, i requires 0 <= i < n => DOut(c, s, m * c.h + i))
  }

  lemma {:induction false} InputsWords(c: Config, s: State, t: State, size: nat, m: nat, n: nat)
    requires c.Valid() && c.enD && n <= c.h && m * c.h + n <= size && AllApart(c, s, size) && Inputs(c, s, t, m * c.h)
    requires (c.enA ==> t.r.ap == s.r.ap + Span(c, c.amod, m)) && (c.enB ==> t.r.bp == s.r.bp + Span(c, c.bmod, m))
    requires (c.enC ==> t.r.cp == s.r.cp + Span(c, c.cmod, m)) && (c.enD ==> t.r.dp == s.r.dp + Span(c, c.dmod, m))
    ensures Inputs(c, s, GenWords(c, t, n), m * c.h + n) && RowLogic(c, t, n) == DRow(c, s, m, n)
  {
    hide GenWord, Inputs, At, Span, AllApart, DOut, Logic;
    if n > 0 {
      var k := m * c.h + (n - 1);
      InputsWords(c, s, t, size, m, n - 1);
      WordPointers(c, t, n - 1);
      AtRow(c, s.r.ap, c.amod, m, n - 1);
      AtRow(c, s.r.bp, c.bmod, m, n - 1);
      AtRow(c, s.r.cp, c.cmod, m, n - 1);
      AtRow(c, s.r.dp, c.dmod, m, n - 1);
      LogicIs(c, s, GenWords(c, t, n - 1), size, k);
      InputsWord(c, s, GenWords(c, t, n - 1), size, k);
      assert DRow(c, s, m, n) == DRow(c, s, m, n - 1) + [DOut(c, s, k)];
    }
  }

  lemma {:induction false} WordsPlain(c: Config, t: State, n: nat)
    requires c.Valid() && !c.filling
    ensures GenWords(c, t, n).r.outs == t.r.outs + RowLogic(c, t, n)
  {
    hide Logic, Get, Put;
    if n > 0 { WordsPlain(c, t, n - 1); }
  }

  // Row j of D: the words of the logic, or these filled as one string of bits.
  ghost predicate RowIs(c: Config, s: State, row: seq<Word>, j: nat)
    requires c.Valid()
  {
    if c.filling then |row| == c.h && Flat(row) == Fill(Flat(DRow(c, s, j, c.h)), c.fc0, c.inclusive).0
    else row == DRow(c, s, j, c.h)
  }

  function RowAt(c: Config, outs: seq<Word>, j: nat): seq<Word> {
    seq(c.h, i requires 0 <= i < c.h => if j * c.h + i < |outs| then outs[j * c.h + i] else ZERO)
  }

  lemma OneRow(c: Config, s: State, t: State, size: nat, m: nat)
    requires c.Valid() && c.enD && m * c.h + c.h <= size && AllApart(c, s, size) && Inputs(c, s, t, m * c.h)
    requires (c.enA ==> t.r.ap == s.r.ap + Span(c, c.amod, m)) && (c.enB ==> t.r.bp == s.r.bp + Span(c, c.bmod, m))
    requires (c.enC ==> t.r.cp == s.r.cp + Span(c, c.cmod, m)) && (c.enD ==> t.r.dp == s.r.dp + Span(c, c.dmod, m))
    ensures Inputs(c, s, GenRow(c, t), m * c.h + c.h)
    ensures var outs := GenRow(c, t).r.outs;
      |outs| == m * c.h + c.h && outs[..m * c.h] == t.r.outs && RowIs(c, s, outs[m * c.h..], m)
  {
    hide GenWords, AllApart, DRow, Stores, Masked, BData, Fill, Flat, RowLogic, At, Span;
    var f := t.(r := t.r.(fc := c.fc0));
    InputsWords(c, s, f, size, m, c.h);
    if c.filling { RowFills(c, f, c.h); } else { WordsPlain(c, f, c.h); }
  }

  lemma {:induction false} RowsBelow(h: nat, j: nat, m: nat)
    requires j < m
    ensures j * h + h <= m * h
  {
    if j < m - 1 { RowsBelow(h, j, m - 1); }
    assert m * h == (m - 1) * h + h;
  }

  lemma {:induction false} BlitRows(c: Config, s: State, size: nat, m: nat)
    requires c.Valid() && c.enD && m * c.h <= size && AllApart(c, s, size) && Inputs(c, s, s, 0)
    ensures Inputs(c, s, GenRows(c, s, m), m * c.h)
    ensures forall j | 0 <= j < m :: RowIs(c, s, RowAt(c, GenRows(c, s, m).r.outs, j), j)
  {
    hide GenRow, Inputs, AllApart, RowIs, RowAt, Span;
    if m > 0 {
      RowsBelow(c.h, m - 1, m);
      BlitRows(c, s, size, m - 1);
      RowPointers(c, s, m - 1);
      var t, u := GenRows(c, s, m - 1), GenRows(c, s, m);
      SizeIs(c, s, t, (m - 1) * c.h);
      OneRow(c, s, t, size, m - 1);
      assert (m - 1) * c.h + c.h == m * c.h;
      forall j | 0 <= j < m
        ensures RowIs(c, s, RowAt(c, u.r.outs, j), j)
      {
        if j < m - 1 { RowStays(c, t.r.outs, u.r.outs, j, m - 1); } else { LastRow(c, u.r.outs, m - 1); }
      }
    }
  }

  lemma RowStays(c: Config, outs: seq<Word>, more: seq<Word>, j: nat, m: nat)
    requires j < m && m * c.h == |outs| <= |more| && more[..|outs|] == outs
    ensures RowAt(c, more, j) == RowAt(c, outs, j)
  {
    RowsBelow(c.h, j, m);
    assert forall k | 0 <= k < |outs| :: more[..|outs|][k] == more[k];
  }

  lemma LastRow(c: Config, outs: seq<Word>, m: nat)
    requires |outs| == m * c.h + c.h
    ensures RowAt(c, outs, m) == outs[m * c.h..]
  {
  }

  lemma SizeIs(c: Config, s: State, t: State, k: nat)
    requires c.Valid() && Inputs(c, s, t, k)
    ensures |t.r.outs| == k
  {
  }

  lemma WritesDone(c: Config, s: State, t: State, k: nat)
    requires c.Valid() && Inputs(c, s, t, k)
    ensures LastWrite(t) == Stores(c, s.mem, s.r.dp, t.r.outs)
  {
    hide Put, At;
    if k > 0 { assert t.r.outs[..k] == t.r.outs; }
  }

  // ---- in memory ----

  // The rows of D in memory.
  function Place(c: Config, base: int, mod: int, j: nat, i: nat): int {
    base + (if c.down then -1 else 1) * (j * (c.h + mod) + i)
  }

  lemma PlaceIs(c: Config, base: int, mod: int, j: nat, i: nat)
    requires c.Valid() && i < c.h
    ensures At(c, base, mod, j * c.h + i) == Place(c, base, mod, j, i)
  {
    AtRow(c, base, mod, j, i);
    assert (c.h + mod) * j == j * (c.h + mod);
  }

  function RowIn(c: Config, s: State, mem: Memory, j: nat): seq<Word> {
    seq(c.h, i requires 0 <= i < c.h => Get(mem, Place(c, s.r.dp, c.dmod, j, i)))
  }

  // Where nothing overlaps, row j of D holds the words of the logic, or these filled.
  lemma BlitIs(c: Config, s: State, j: nat)
    requires c.Valid() && c.enD && j < c.v && AllApart(c, s, c.v * c.h)
    requires s.r.outs == [] && !s.r.dodst && s.r.preva == s.r.prevb == ZERO
    ensures RowIs(c, s, RowIn(c, s, LastWrite(GenRows(c, s, c.v)), j), j)
  {
    hide GenRows, LastWrite, RowIs, At, Get, Place;
    var t := GenRows(c, s, c.v);
    BlitRows(c, s, c.v * c.h, c.v);
    WritesDone(c, s, t, c.v * c.h);
    RowsBelow(c.h, j, c.v);
    var mem := LastWrite(t);
    forall i | 0 <= i < c.h
      ensures Get(mem, Place(c, s.r.dp, c.dmod, j, i)) == RowAt(c, t.r.outs, j)[i]
    {
      PlaceIs(c, s.r.dp, c.dmod, j, i);
      StoredAt(c, s, t.r.outs, j * c.h + i);
    }
    assert RowIn(c, s, mem, j) == RowAt(c, t.r.outs, j);
  }

  lemma {:induction false} StoredAt(c: Config, s: State, outs: seq<Word>, k: nat)
    requires c.Valid() && AllApart(c, s, |outs|) && k < |outs|
    ensures Get(Stores(c, s.mem, s.r.dp, outs), At(c, s.r.dp, c.dmod, k)) == outs[k]
  {
    hide At, ApartFrom;
    if k < |outs| - 1 {
      FewerApart(c, s, |outs|);
      StoredAt(c, s, outs[..|outs| - 1], k);
    }
  }

  lemma FewerApart(c: Config, s: State, n: nat)
    requires c.Valid() && n > 0 && AllApart(c, s, n)
    ensures AllApart(c, s, n - 1)
  {
    hide At;
  }

  // ---- bit by bit ----

  // Bit x of the word of A in row j, column i, after masking: the first word of a row by one mask, the last
  // by the other, by both if there is only one.
  predicate ABit(c: Config, s: State, j: nat, i: nat, x: nat)
    requires x < 16
  {
    && (if c.enA then Get(s.mem, Place(c, s.r.ap, c.amod, j, i)) else s.r.adat)[x]
    && (i == 0 ==> c.afwm[x]) && (i + 1 == c.h ==> c.alwm[x])
  }

  predicate BBit(c: Config, s: State, j: nat, i: nat, x: nat)
    requires x < 16
  {
    Get(s.mem, Place(c, s.r.bp, c.bmod, j, i))[x]
  }

  // Where bit x of word (j, i) comes from when everything is moved by `shift` bits, over word and row
  // boundaries: ascending blits move to the right, descending ones to the left. Nothing comes in first.
  datatype From = From(j: int, i: int, x: int)

  function Source(c: Config, j: nat, i: nat, x: nat, shift: nat): (f: From)
    requires c.h > 0 && shift < 16 && x < 16
    ensures 0 <= f.x < 16
  {
    var y := if c.down then x - shift else x + shift;
    if 0 <= y < 16 then From(j, i, y)
    else
      var z := if c.down then y + 16 else y - 16;
      if i > 0 then From(j, i - 1, z) else From(j - 1, c.h - 1, z)
  }

  predicate AShifted(c: Config, s: State, j: nat, i: nat, x: nat)
    requires c.Valid() && x < 16
  {
    var f := Source(c, j, i, x, c.ashift);
    f.j >= 0 && f.i >= 0 && ABit(c, s, f.j, f.i, f.x)
  }

  predicate BShifted(c: Config, s: State, j: nat, i: nat, x: nat)
    requires c.Valid() && x < 16
  {
    if c.enB then
      var f := Source(c, j, i, x, c.bshift);
      f.j >= 0 && f.i >= 0 && BBit(c, s, f.j, f.i, f.x)
    else s.r.bhold[x]
  }

  predicate CBit(c: Config, s: State, j: nat, i: nat, x: nat)
    requires x < 16
  {
    (if c.enC then Get(s.mem, Place(c, s.r.cp, c.cmod, j, i)) else s.r.cdat)[x]
  }

  lemma MaskedBit(c: Config, s: State, j: nat, i: nat, x: nat)
    requires c.Valid() && i < c.h && x < 16
    ensures Masked(c, s, j * c.h + i)[x] == ABit(c, s, j, i, x)
  {
    PlaceIs(c, s.r.ap, c.amod, j, i);
    AtRow(c, s.r.ap, c.amod, j, i);
    hide At, Get, Place;
  }

  lemma HoldBit(c: Config, prev: Word, data: Word, shift: nat, x: nat)
    requires shift < 16 && x < 16
    ensures c.Hold(prev, data, shift)[x] ==
      var y := if c.down then x - shift else x + shift;
      if 0 <= y < 16 then data[y] else prev[if c.down then y + 16 else y - 16]
  {
  }

  lemma Before(c: Config, j: nat, i: nat)
    requires c.Valid() && i < c.h && j * c.h + i > 0
    ensures j * c.h + i - 1 == (if i > 0 then j * c.h + (i - 1) else (j - 1) * c.h + (c.h - 1))
    ensures i == 0 ==> j > 0
  {
  }

  lemma AInBit(c: Config, s: State, j: nat, i: nat, x: nat)
    requires c.Valid() && i < c.h && x < 16
    ensures AIn(c, s, j * c.h + i)[x] == AShifted(c, s, j, i, x)
  {
    hide Masked, ABit, Config.Hold;
    var k := j * c.h + i;
    HoldBit(c, if k == 0 then ZERO else Masked(c, s, k - 1), Masked(c, s, k), c.ashift, x);
    var f := Source(c, j, i, x, c.ashift);
    MaskedBit(c, s, j, i, f.x);
    if k > 0 {
      Before(c, j, i);
      if i > 0 { MaskedBit(c, s, j, i - 1, f.x); } else { MaskedBit(c, s, j - 1, c.h - 1, f.x); }
    } else {
      FirstWord(c.h, j, i);
    }
  }

  lemma FirstWord(h: nat, j: nat, i: nat)
    requires h > 0 && j * h + i == 0
    ensures j == 0 && i == 0
  {
    if j > 0 { RowsBelow(h, 0, j); }
  }

  lemma BInBit(c: Config, s: State, j: nat, i: nat, x: nat)
    requires c.Valid() && i < c.h && x < 16
    ensures BIn(c, s, j * c.h + i)[x] == BShifted(c, s, j, i, x)
  {
    hide Config.Hold, Get, At, Place;
    var k := j * c.h + i;
    if c.enB {
      HoldBit(c, if k == 0 then ZERO else BData(c, s, k - 1), BData(c, s, k), c.bshift, x);
      PlaceIs(c, s.r.bp, c.bmod, j, i);
      if k > 0 {
        Before(c, j, i);
        if i > 0 { PlaceIs(c, s.r.bp, c.bmod, j, i - 1); } else { PlaceIs(c, s.r.bp, c.bmod, j - 1, c.h - 1); }
      } else {
        FirstWord(c.h, j, i);
      }
    }
  }

  // Bit 4a + 2b + c of the number of the logic function.
  predicate Minterm(mt: int, a: bool, b: bool, c: bool) {
    var shifted :=
      if a then (if b then (if c then mt / 128 else mt / 64) else (if c then mt / 32 else mt / 16))
      else (if b then (if c then mt / 8 else mt / 4) else (if c then mt / 2 else mt));
    shifted % 2 == 1
  }

  // The words before filling.
  lemma LogicBit(c: Config, s: State, j: nat, i: nat, x: nat)
    requires c.Valid() && i < c.h && x < 16
    ensures DRow(c, s, j, c.h)[i][x]
        <==> Minterm(c.mt, AShifted(c, s, j, i, x), BShifted(c, s, j, i, x), CBit(c, s, j, i, x))
  {
    hide AIn, BIn, AShifted, BShifted, BitFunc, Get, Place, At;
    AInBit(c, s, j, i, x);
    BInBit(c, s, j, i, x);
    PlaceIs(c, s.r.cp, c.cmod, j, i);
    BitFuncIsSelected(AShifted(c, s, j, i, x), BShifted(c, s, j, i, x), CBit(c, s, j, i, x), c.mt);
  }

  // Where nothing overlaps: each bit that a blit leaves at a place of D is the selected function of one bit of
  // A, masked and shifted, one of B, shifted, and one of C.
  lemma BlitBits(c: Config, s: State, j: nat, i: nat, x: nat)
    requires c.Valid() && c.enD && !c.filling && j < c.v && i < c.h && x < 16 && AllApart(c, s, c.v * c.h)
    requires s.r.outs == [] && !s.r.dodst && s.r.preva == s.r.prevb == ZERO
    ensures Get(LastWrite(GenRows(c, s, c.v)), Place(c, s.r.dp, c.dmod, j, i))[x]
        <==> Minterm(c.mt, AShifted(c, s, j, i, x), BShifted(c, s, j, i, x), CBit(c, s, j, i, x))
  {
    hide GenRows, LastWrite, DRow, AShifted, BShifted, CBit, Minterm, Place, Get, AllApart;
    BlitIs(c, s, j);
    LogicBit(c, s, j, i, x);
    assert RowIn(c, s, LastWrite(GenRows(c, s, c.v)), j)[i] == DRow(c, s, j, c.h)[i];
  }

  // And if they are filled: each row as one string of bits.
  lemma BlitFills(c: Config, s: State, j: nat)
    requires c.Valid() && c.enD && c.filling && j < c.v && AllApart(c, s, c.v * c.h)
    requires s.r.outs == [] && !s.r.dodst && s.r.preva == s.r.prevb == ZERO
    ensures var row := RowIn(c, s, LastWrite(GenRows(c, s, c.v)), j);
      Flat(row) == Fill(Flat(DRow(c, s, j, c.h)), c.fc0, c.inclusive).0
    ensures forall i, x | 0 <= i < c.h && 0 <= x < 16 ::
      (DRow(c, s, j, c.h)[i][x]
       <==> Minterm(c.mt, AShifted(c, s, j, i, x), BShifted(c, s, j, i, x), CBit(c, s, j, i, x)))
  {
    hide GenRows, LastWrite, DOut, AShifted, BShifted, CBit, Minterm, Flat, Fill, AllApart, RowIn;
    BlitIs(c, s, j);
    forall i, x | 0 <= i < c.h && 0 <= x < 16
      ensures DRow(c, s, j, c.h)[i][x]
          <==> Minterm(c.mt, AShifted(c, s, j, i, x), BShifted(c, s, j, i, x), CBit(c, s, j, i, x))
    {
      LogicBit(c, s, j, i, x);
    }
  }

  // A copy of A to D that does not shift: a bit is set if and only if it is set in A, and in the first mask
  // if it is in the first word of a row, and in the last mask if it is in the last.
  lemma CopyMasks(c: Config, s: State, j: nat, i: nat, x: nat)
    requires c.Valid() && c.enA && c.enD && c.mt == 0xf0 && !c.filling && c.ashift == 0
    requires j < c.v && i < c.h && x < 16 && AllApart(c, s, c.v * c.h)
    requires s.r.outs == [] && !s.r.dodst && s.r.preva == s.r.prevb == ZERO
    ensures Get(LastWrite(GenRows(c, s, c.v)), Place(c, s.r.dp, c.dmod, j, i))[x]
        <==> Get(s.mem, Place(c, s.r.ap, c.amod, j, i))[x]
             && (i == 0 ==> c.afwm[x]) && (i + 1 == c.h ==> c.alwm[x])
  {
    hide GenRows, LastWrite, Place, Get, AllApart, BShifted, CBit;
    BlitBits(c, s, j, i, x);
  }
}
