// CD-ROM Mode 1 sectors: product-code parity over GF(256) and the error detection code
// (ECMA-130, clause 14 and Annex A).

module CdRom {
  import opened Gf256
  import Crc

  // ---- codewords ----

  // A word of symbols taken as a polynomial, highest power first, at 1 and at the generator.
  function Sum0(w: seq<bv8>): bv8 { if w == [] then 0 else Plus(Sum0(w[..|w| - 1]), w[|w| - 1]) }

  function Sum1(w: seq<bv8>): bv8 { if w == [] then 0 else Plus(Times2(Sum1(w[..|w| - 1])), w[|w| - 1]) }

  // The two parity equations.
  predicate Codeword(w: seq<bv8>) { Sum0(w) == 0 && Sum1(w) == 0 }

  lemma SumsAppend(w: seq<bv8>, x: bv8)
    ensures Sum0(w + [x]) == Plus(Sum0(w), x) && Sum1(w + [x]) == Plus(Times2(Sum1(w)), x)
  {
    hide Plus, Times2;
    assert (w + [x])[..|w + [x]| - 1] == w;
  }

  lemma WithParity(d: seq<bv8>, p0: bv8, p1: bv8)
    ensures Sum0(d + [p0, p1]) == Plus(Plus(Sum0(d), p0), p1)
    ensures Sum1(d + [p0, p1]) == Plus(Plus(Times2(Times2(Sum1(d))), Times2(p0)), p1)
  {
    hide Sum0, Sum1, Times2, Plus;
    assert d + [p0, p1] == (d + [p0]) + [p1];
    SumsAppend(d, p0);
    SumsAppend(d + [p0], p1);
    Times2Plus(Times2(Sum1(d)), p0);
  }

  lemma Times2Fixed(u: bv8)
    requires Times2(u) == u
    ensures u == 0
  {
  }

  // From s + p0 + p1 = 0 = s + q0 + q1.
  lemma SameSum(s: bv8, p0: bv8, p1: bv8, q0: bv8, q1: bv8)
    requires Plus(Plus(s, p0), p1) == 0 && Plus(Plus(s, q0), q1) == 0
    ensures Plus(p0, q0) == Plus(p1, q1)
  {
    hide Plus;
    PlusSelf(Plus(s, p0), p1);
    PlusSelf(Plus(s, q0), q1);
    PlusCross(s, p0, s, q0);
    PlusSelf(s, s);
    PlusZero(Plus(p0, q0));
  }

  // Given the data, the parity symbols are determined by the equations.
  lemma ParityIsUnique(d: seq<bv8>, p0: bv8, p1: bv8, q0: bv8, q1: bv8)
    requires Codeword(d + [p0, p1]) && Codeword(d + [q0, q1])
    ensures p0 == q0 && p1 == q1
  {
    hide Times2, Plus, Sum0, Sum1;
    WithParity(d, p0, p1);
    WithParity(d, q0, q1);
    SameSum(Sum0(d), p0, p1, q0, q1);
    SameSum(Times2(Times2(Sum1(d))), Times2(p0), p1, Times2(q0), q1);
    Times2Plus(p0, q0);
    Times2Fixed(Plus(p0, q0));
    PlusSelf(p0, q0);
    PlusSelf(p1, q1);
  }

  lemma Replaced(a: bv8, b: bv8, c: bv8)
    ensures Plus(a, c) == Plus(Plus(a, b), Plus(b, c))
  {
    hide Plus;
    PlusAssociates(a, b, Plus(b, c));
    PlusAssociates(b, b, c);
    PlusSelf(b, b);
    PlusZero(c);
  }

  // A single wrong symbol changes the sums by the error, and by the error times a power that
  // tells its place: it is always seen.
  lemma {:induction false} OneSymbolSeen(w: seq<bv8>, i: nat, x: bv8)
    requires i < |w| && w[i] != x
    ensures Sum0(w[i := x]) == Plus(Sum0(w), Plus(w[i], x))
    ensures Sum1(w[i := x]) == Plus(Sum1(w), Power(|w| - 1 - i, Plus(w[i], x)))
    ensures Codeword(w) ==> !Codeword(w[i := x])
  {
    hide Times2, Plus;
    var n := |w| - 1;
    var d := Plus(w[i], x);
    if i < n {
      OneSymbolSeen(w[..n], i, x);
      assert w[i := x][..n] == w[..n][i := x];
      Times2Plus(Sum1(w[..n]), Power(n - 1 - i, d));
      PlusSwap(Sum0(w[..n]), d, w[n]);
      PlusSwap(Times2(Sum1(w[..n])), Power(n - i, d), w[n]);
    } else {
      assert w[i := x][..n] == w[..n];
      Replaced(Sum0(w[..n]), w[n], x);
      Replaced(Times2(Sum1(w[..n])), w[n], x);
    }
    PlusSelf(w[i], x);
    PlusZero(d);
  }

  // Powers below 255 of the generator are all different.
  lemma PowerInjective(m: nat, n: nat, d: bv8)
    requires d != 0 && m < 255 && n < 255
    ensures Power(m, d) == Power(n, d) <==> m == n
  {
    hide Log, Power;
    LogPower(m, d);
    LogPower(n, d);
  }

  // Two wrong symbols at different places of a codeword are always seen, too.
  lemma TwoSymbolsSeen(w: seq<bv8>, i: nat, j: nat, x: bv8, y: bv8)
    requires i < j < |w| <= 255 && w[i] != x && w[j] != y && Codeword(w)
    ensures !Codeword(w[i := x][j := y])
  {
    hide Times2, Plus, Power, Sum0, Sum1;
    var v, n := w[i := x], |w| - 1;
    var d, e := Plus(w[i], x), Plus(w[j], y);
    OneSymbolSeen(w, i, x);
    OneSymbolSeen(v, j, y);
    PlusSelf(w[i], x);
    PlusZero(d);
    PlusSelf(d, e);
    PlusZero(Power(n - i, d));
    PlusSelf(Power(n - i, d), Power(n - j, e));
    PowerInjective(n - i, n - j, d);
  }

  // ---- the parity tables ----

  // DP[0], DP[1], DQ[0] and DQ[1]: logarithms of what a data symbol adds to the parity symbols.
  const DP0: seq<int> := [
    231, 229, 171, 210, 240, 17, 67, 215, 43, 120, 8, 199, 74, 102, 220, 251,
    95, 175, 87, 166, 113, 75, 198, 25
  ]
  const DP1: seq<int> := [
    230, 172, 211, 241, 18, 68, 216, 44, 121, 9, 200, 75, 103, 221, 252, 96,
    176, 88, 167, 114, 76, 199, 26, 1
  ]
  const DQ0: seq<int> := [
    190, 96, 250, 132, 59, 81, 159, 154, 200, 7, 111, 245, 10, 20, 41, 156,
    168, 79, 173, 231, 229, 171, 210, 240, 17, 67, 215, 43, 120, 8, 199, 74,
    102, 220, 251, 95, 175, 87, 166, 113, 75, 198, 25
  ]
  const DQ1: seq<int> := [
    97, 251, 133, 60, 82, 160, 155, 201, 8, 112, 246, 11, 21, 42, 157, 169,
    80, 174, 232, 230, 172, 211, 241, 18, 68, 216, 44, 121, 9, 200, 75, 103,
    221, 252, 96, 176, 88, 167, 114, 76, 199, 26, 1
  ]
  // What a symbol adds to the two parity symbols makes up for what it adds to the equations,
  // if `top` symbols follow it in the codeword.
  predicate Balanced(e0: int, e1: int, top: int) {
    && 0 <= e0 < 255 && 0 <= e1 < 255 && 0 <= top < 255
    && Alog(e1) == 1 ^ Alog(e0) && Alog(e1) == Alog(top) ^ Times2(Alog(e0))
  }

  predicate PBalanced(i: int)
    requires 0 <= i < 24
  {
    |DP0| == |DP1| == 24 && Balanced(DP0[i], DP1[i], 25 - i)
  }

  lemma PRow(i: int, e0: int, e1: int)
    requires 0 <= i < 24 && |DP0| == |DP1| == 24 && DP0[i] == e0 && DP1[i] == e1
    requires Balanced(e0, e1, 25 - i)
    ensures PBalanced(i)
  {
    hide Balanced;
  }

  lemma PRows0(i: int)
    requires 0 <= i < 8
    ensures PBalanced(i)
  {
    hide PBalanced;
    if i == 0 {
      PRow(i, 231, 230);
    } else if i == 1 {
      PRow(i, 229, 172);
    } else if i == 2 {
      PRow(i, 171, 211);
    } else if i == 3 {
      PRow(i, 210, 241);
    } else if i == 4 {
      PRow(i, 240, 18);
    } else if i == 5 {
      PRow(i, 17, 68);
    } else if i == 6 {
      PRow(i, 67, 216);
    } else if i == 7 {
      PRow(i, 215, 44);
    }
  }

  lemma PRows8(i: int)
    requires 8 <= i < 16
    ensures PBalanced(i)
  {
    hide PBalanced;
    if i == 8 {
      PRow(i, 43, 121);
    } else if i == 9 {
      PRow(i, 120, 9);
    } else if i == 10 {
      PRow(i, 8, 200);
    } else if i == 11 {
      PRow(i, 199, 75);
    } else if i == 12 {
      PRow(i, 74, 103);
    } else if i == 13 {
      PRow(i, 102, 221);
    } else if i == 14 {
      PRow(i, 220, 252);
    } else if i == 15 {
      PRow(i, 251, 96);
    }
  }

  lemma PRows16(i: int)
    requires 16 <= i < 24
    ensures PBalanced(i)
  {
    hide PBalanced;
    if i == 16 {
      PRow(i, 95, 176);
    } else if i == 17 {
      PRow(i, 175, 88);
    } else if i == 18 {
      PRow(i, 87, 167);
    } else if i == 19 {
      PRow(i, 166, 114);
    } else if i == 20 {
      PRow(i, 113, 76);
    } else if i == 21 {
      PRow(i, 75, 199);
    } else if i == 22 {
      PRow(i, 198, 26);
    } else if i == 23 {
      PRow(i, 25, 1);
    }
  }

  lemma PTable(i: int)
    requires 0 <= i < 24
    ensures PBalanced(i)
  {
    hide PBalanced;
    if i < 8 {
      PRows0(i);
    } else if i < 16 {
      PRows8(i);
    } else {
      PRows16(i);
    }
  }

  predicate QBalanced(i: int)
    requires 0 <= i < 43
  {
    |DQ0| == |DQ1| == 43 && Balanced(DQ0[i], DQ1[i], 44 - i)
  }

  lemma QRow(i: int, e0: int, e1: int)
    requires 0 <= i < 43 && |DQ0| == |DQ1| == 43 && DQ0[i] == e0 && DQ1[i] == e1
    requires Balanced(e0, e1, 44 - i)
    ensures QBalanced(i)
  {
    hide Balanced;
  }

  lemma QRows0(i: int)
    requires 0 <= i < 8
    ensures QBalanced(i)
  {
    hide QBalanced;
    if i == 0 {
      QRow(i, 190, 97);
    } else if i == 1 {
      QRow(i, 96, 251);
    } else if i == 2 {
      QRow(i, 250, 133);
    } else if i == 3 {
      QRow(i, 132, 60);
    } else if i == 4 {
      QRow(i, 59, 82);
    } else if i == 5 {
      QRow(i, 81, 160);
    } else if i == 6 {
      QRow(i, 159, 155);
    } else if i == 7 {
      QRow(i, 154, 201);
    }
  }

  lemma QRows8(i: int)
    requires 8 <= i < 16
    ensures QBalanced(i)
  {
    hide QBalanced;
    if i == 8 {
      QRow(i, 200, 8);
    } else if i == 9 {
      QRow(i, 7, 112);
    } else if i == 10 {
      QRow(i, 111, 246);
    } else if i == 11 {
      QRow(i, 245, 11);
    } else if i == 12 {
      QRow(i, 10, 21);
    } else if i == 13 {
      QRow(i, 20, 42);
    } else if i == 14 {
      QRow(i, 41, 157);
    } else if i == 15 {
      QRow(i, 156, 169);
    }
  }

  lemma QRows16(i: int)
    requires 16 <= i < 24
    ensures QBalanced(i)
  {
    hide QBalanced;
    if i == 16 {
      QRow(i, 168, 80);
    } else if i == 17 {
      QRow(i, 79, 174);
    } else if i == 18 {
      QRow(i, 173, 232);
    } else if i == 19 {
      QRow(i, 231, 230);
    } else if i == 20 {
      QRow(i, 229, 172);
    } else if i == 21 {
      QRow(i, 171, 211);
    } else if i == 22 {
      QRow(i, 210, 241);
    } else if i == 23 {
      QRow(i, 240, 18);
    }
  }

  lemma QRows24(i: int)
    requires 24 <= i < 32
    ensures QBalanced(i)
  {
    hide QBalanced;
    if i == 24 {
      QRow(i, 17, 68);
    } else if i == 25 {
      QRow(i, 67, 216);
    } else if i == 26 {
      QRow(i, 215, 44);
    } else if i == 27 {
      QRow(i, 43, 121);
    } else if i == 28 {
      QRow(i, 120, 9);
    } else if i == 29 {
      QRow(i, 8, 200);
    } else if i == 30 {
      QRow(i, 199, 75);
    } else if i == 31 {
      QRow(i, 74, 103);
    }
  }

  lemma QRows32(i: int)
    requires 32 <= i < 40
    ensures QBalanced(i)
  {
    hide QBalanced;
    if i == 32 {
      QRow(i, 102, 221);
    } else if i == 33 {
      QRow(i, 220, 252);
    } else if i == 34 {
      QRow(i, 251, 96);
    } else if i == 35 {
      QRow(i, 95, 176);
    } else if i == 36 {
      QRow(i, 175, 88);
    } else if i == 37 {
      QRow(i, 87, 167);
    } else if i == 38 {
      QRow(i, 166, 114);
    } else if i == 39 {
      QRow(i, 113, 76);
    }
  }

  lemma QRows40(i: int)
    requires 40 <= i < 43
    ensures QBalanced(i)
  {
    hide QBalanced;
    if i == 40 {
      QRow(i, 75, 199);
    } else if i == 41 {
      QRow(i, 198, 26);
    } else if i == 42 {
      QRow(i, 25, 1);
    }
  }

  lemma QTable(i: int)
    requires 0 <= i < 43
    ensures QBalanced(i)
  {
    hide QBalanced;
    if i < 8 {
      QRows0(i);
    } else if i < 16 {
      QRows8(i);
    } else if i < 24 {
      QRows16(i);
    } else if i < 32 {
      QRows24(i);
    } else if i < 40 {
      QRows32(i);
    } else {
      QRows40(i);
    }
  }

  // ---- forming the parity ----

  // What the first n data symbols add to a parity symbol.
  function Parity(d: seq<bv8>, e: seq<int>, n: nat): bv8
    requires n <= |d| == |e|
  {
    if n == 0 then 0 else Plus(Parity(d, e, n - 1), Product(d[n - 1], e[n - 1]))
  }

  ghost predicate AllBalanced(e0: seq<int>, e1: seq<int>) {
    |e0| == |e1| < 200 && forall i | 0 <= i < |e0| :: Balanced(e0[i], e1[i], |e0| + 1 - i)
  }

  lemma PowersOfOne(e0: int, e1: int, top: int)
    requires Balanced(e0, e1, top)
    ensures Power(e1, 1) == Plus(1, Power(e0, 1)) && Power(e1, 1) == Plus(Power(top, 1), Power(1, Power(e0, 1)))
  {
    hide Alog;
    AlogIsPower(e0);
    AlogIsPower(e1);
    AlogIsPower(top);
  }

  // The condition on the tables, for any symbol in place of 1.
  lemma SymbolBalanced(e0: int, e1: int, top: int, d: bv8)
    requires Balanced(e0, e1, top)
    ensures Product(d, e1) == Plus(d, Product(d, e0))
    ensures Product(d, e1) == Plus(Power(top, d), Times2(Product(d, e0)))
  {
    hide Times2, Plus, Power, Product, Alog, Log;
    ProductIsPower(d, e0);
    ProductIsPower(d, e1);
    PowerOne(Power(e0, d));
    if d == 0 {
      PowerZero(e0, d);
      PowerZero(e1, d);
      PowerZero(top, d);
      PlusZero(0);
      Times2Zero(0);
    } else {
      EveryElement(d);
      var l := Log(d);
      PowersOfOne(e0, e1, top);
      PowersCommute(e0, l, 1);
      PowersCommute(e1, l, 1);
      PowersCommute(top, l, 1);
      PowerPlus(l, 1, Power(e0, 1));
      PowerPlus(l, Power(top, 1), Power(1, Power(e0, 1)));
      PowersCommute(l, 1, Power(e0, 1));
    }
  }

  lemma PowerOne(x: bv8)
    ensures Power(1, x) == Times2(x)
  {
    assert Power(0, x) == x;
  }

  // How the sums over the first n data symbols of a codeword stand to the parity formed so far.
  ghost predicate Keeping(d: seq<bv8>, e0: seq<int>, e1: seq<int>, n: nat)
    requires n <= |d| == |e0| == |e1|
  {
    && Parity(d, e1, n) == Plus(Sum0(d[..n]), Parity(d, e0, n))
    && Parity(d, e1, n) == Plus(Power(|d| + 2 - n, Sum1(d[..n])), Times2(Parity(d, e0, n)))
  }

  lemma {:induction false} Kept(d: seq<bv8>, e0: seq<int>, e1: seq<int>, n: nat)
    requires n <= |d| == |e0| == |e1| && AllBalanced(e0, e1)
    ensures Keeping(d, e0, e1, n)
  {
    if n == 0 {
      KeptNone(d, e0, e1);
    } else {
      hide Times2, Plus, Power, Product, Balanced, AllBalanced, Sum0, Sum1, Parity;
      Kept(d, e0, e1, n - 1);
      BalancedAt(e0, e1, n - 1);
      ParityOf(d, e0, n);
      ParityOf(d, e1, n);
      SumsOf(d, n);
      var x, m := d[n - 1], |d| + 2 - n;
      SymbolBalanced(e0[n - 1], e1[n - 1], m, x);
      KeptStep(Sum0(d[..n - 1]), Sum1(d[..n - 1]), m, x, Parity(d, e0, n - 1), Parity(d, e1, n - 1),
               Product(x, e0[n - 1]), Product(x, e1[n - 1]));
    }
  }

  lemma KeptNone(d: seq<bv8>, e0: seq<int>, e1: seq<int>)
    requires |d| == |e0| == |e1|
    ensures Keeping(d, e0, e1, 0)
  {
    hide Times2, Plus, Power, Product;
    PlusZero(0);
    Times2Zero(0);
    PowerZero(|d| + 2, 0);
  }

  lemma BalancedAt(e0: seq<int>, e1: seq<int>, i: nat)
    requires AllBalanced(e0, e1) && i < |e0|
    ensures Balanced(e0[i], e1[i], |e0| + 1 - i)
  {
    hide Balanced;
  }

  lemma ParityOf(d: seq<bv8>, e: seq<int>, n: nat)
    requires 0 < n <= |d| == |e|
    ensures Parity(d, e, n) == Plus(Parity(d, e, n - 1), Product(d[n - 1], e[n - 1]))
  {
    hide Plus, Product;
  }

  lemma SumsOf(d: seq<bv8>, n: nat)
    requires 0 < n <= |d|
    ensures Sum0(d[..n]) == Plus(Sum0(d[..n - 1]), d[n - 1])
    ensures Sum1(d[..n]) == Plus(Times2(Sum1(d[..n - 1])), d[n - 1])
  {
    hide Plus, Times2;
    assert d[..n][..n - 1] == d[..n - 1];
  }

  lemma KeptStep(s0: bv8, s1: bv8, m: nat, x: bv8, p0: bv8, p1: bv8, q0: bv8, q1: bv8)
    requires p1 == Plus(s0, p0) && p1 == Plus(Power(m + 1, s1), Times2(p0))
    requires q1 == Plus(x, q0) && q1 == Plus(Power(m, x), Times2(q0))
    ensures Plus(p1, q1) == Plus(Plus(s0, x), Plus(p0, q0))
    ensures Plus(p1, q1) == Plus(Power(m, Plus(Times2(s1), x)), Times2(Plus(p0, q0)))
  {
    hide Times2, Plus, Power;
    PlusCross(s0, p0, x, q0);
    PlusCross(Power(m + 1, s1), Times2(p0), Power(m, x), Times2(q0));
    Times2Plus(p0, q0);
    PowerPlus(m, Times2(s1), x);
    PowerAdd(m, 1, s1);
    PowerOne(s1);
  }

  // The data followed by its two parity symbols satisfies both equations.
  lemma Encoded(d: seq<bv8>, e0: seq<int>, e1: seq<int>)
    requires |d| == |e0| == |e1| && AllBalanced(e0, e1)
    ensures Codeword(d + [Parity(d, e0, |d|), Parity(d, e1, |d|)])
  {
    hide Times2, Plus, Power, Product, AllBalanced, Sum0, Sum1, Parity;
    Kept(d, e0, e1, |d|);
    assert d[..|d|] == d;
    var p0, p1 := Parity(d, e0, |d|), Parity(d, e1, |d|);
    WithParity(d, p0, p1);
    PowerAdd(1, 1, Sum1(d));
    PowerOne(Sum1(d));
    PowerOne(Times2(Sum1(d)));
    PlusSelf(p1, p1);
  }

  lemma TablesBalanced()
    ensures AllBalanced(DP0, DP1) && AllBalanced(DQ0, DQ1)
  {
    hide Balanced;
    PTable(0);
    QTable(0);
    forall i | 0 <= i < 24
      ensures Balanced(DP0[i], DP1[i], 25 - i)
    {
      PTable(i);
    }
    forall i | 0 <= i < 43
      ensures Balanced(DQ0[i], DQ1[i], 44 - i)
    {
      QTable(i);
    }
  }

  // ---- sectors ----

  // A raw sector: sync and header, user data, EDC, zeros, P parity, Q parity. The parity is formed
  // over what follows the sync pattern.
  const SECTOR := 2352
  const INOUT := 12
  const EDC_AT := 2064
  const P_AT := 2076
  const Q_AT := 2248

  type Sector = s: seq<bv8> | |s| == SECTOR witness seq(SECTOR, i => 0)

  // P codewords are columns of 26 symbols, 86 bytes apart; the last two are parity.
  function PData(s: Sector, c: nat): (r: seq<bv8>)
    requires c < 86
  {
    seq(24, i requires 0 <= i < 24 => s[INOUT + 86 * i + c])
  }

  function PWord(s: Sector, c: nat): seq<bv8>
    requires c < 86
  {
    seq(26, i requires 0 <= i < 26 => s[INOUT + 86 * i + c])
  }

  // Q codewords run diagonally over the same bytes and the P parity, 88 bytes apart, wrapping.
  function QIndex(j: nat, i: nat, b: nat): (r: nat)
    ensures r < 2236
  {
    (j * 86 + i * 88 + b) % 2236
  }

  // Diagonal c takes bytes c % 2 of the cells.
  function QData(s: Sector, c: nat): seq<bv8> {
    seq(43, i requires 0 <= i < 43 => s[INOUT + QIndex(c / 2, i, c % 2)])
  }

  function QWord(s: Sector, c: nat): seq<bv8>
    requires c < 52
  {
    QData(s, c) + [s[Q_AT + c], s[Q_AT + 52 + c]]
  }

  // As 16-bit cells, the diagonals visit each of the 1118 cells exactly once.
  lemma QVisitsEveryCell(w: nat)
    requires w < 1118
    ensures var i, j := w % 43, (w / 43 - w % 43) % 26; i < 43 && j < 26 && (43 * j + 44 * i) % 1118 == w
    ensures forall i, j | 0 <= i < 43 && 0 <= j < 26 && (43 * j + 44 * i) % 1118 == w ::
      i == w % 43 && j == (w / 43 - w % 43) % 26
  {
    var i, q := w % 43, w / 43 - w % 43;
    var j, k := q % 26, q / 26;
    assert 43 * j + 44 * i == w + 1118 * (-k);
    Wraps(w, -k);
    forall i', j' | 0 <= i' < 43 && 0 <= j' < 26 && (43 * j' + 44 * i') % 1118 == w
      ensures i' == i && j' == j
    {
      var m := (43 * j' + 44 * i') / 1118;
      assert w == i' + 43 * (j' + i' - 26 * m);
      assert i' == w % 43 && w / 43 == j' + i' - 26 * m;
      assert w / 43 - i' == j' + 26 * (-m);
      Wraps26(j', -m);
    }
  }

  lemma Wraps(w: nat, k: int)
    requires w < 1118
    ensures (w + 1118 * k) % 1118 == w
  {
  }

  lemma Wraps26(j: nat, k: int)
    requires j < 26
    ensures (j + 26 * k) % 26 == j
  {
  }

  // Byte b of a 16-bit cell is at the index the encoder computes.
  lemma QIndexIsCell(j: nat, i: nat, b: nat)
    requires j < 26 && i < 43 && b < 2
    ensures QIndex(j, i, b) == 2 * ((43 * j + 44 * i) % 1118) + b
  {
    var x := 43 * j + 44 * i;
    var q := x / 1118;
    assert j * 86 + i * 88 + b == (2 * (x % 1118) + b) + 2236 * q;
    Wraps2236(2 * (x % 1118) + b, q);
  }

  lemma Wraps2236(w: nat, k: int)
    requires w < 2236
    ensures (w + 2236 * k) % 2236 == w
  {
  }

  // What one data byte adds to the two parity bytes `stride` apart.
  method AddProducts(a: array<bv8>, at: nat, stride: nat, data: bv8, e0: int, e1: int)
    requires 0 < stride && at + stride < a.Length
    modifies a
    ensures a[at] == Plus(old(a[at]), Product(data, e0))
      && a[at + stride] == Plus(old(a[at + stride]), Product(data, e1))
    ensures forall k | 0 <= k < a.Length && k != at && k != at + stride :: a[k] == old(a[k])
  {
    hide Alog, Log;
    if data != 0 {
      var base := Log(data);
      var sum := base + e0;
      if sum >= 255 { sum := sum - 255; }
      a[at] := Plus(a[at], Alog(sum));
      sum := base + e1;
      if sum >= 255 { sum := sum - 255; }
      a[at + stride] := Plus(a[at + stride], Alog(sum));
    } else {
      PlusZero(a[at]);
      PlusZero(a[at + stride]);
    }
  }

  // The parity of column c after its first n data symbols.
  ghost predicate PFormed(t: Sector, s: Sector, c: nat, n: nat)
    requires c < 86 && n <= 24
  {
    |DP0| == |DP1| == 24 && t[P_AT + c] == Parity(PData(s, c), DP0, n)
    && t[P_AT + 86 + c] == Parity(PData(s, c), DP1, n)
  }

  // How many data symbols of column c have been taken when symbol i of columns 2j and 2j + 1 is next.
  function PTaken(c: nat, j: nat, i: nat): nat { if c < 2 * j then 24 else if c < 2 * j + 2 then i else 0 }

  ghost predicate PSoFar(t: Sector, s: Sector, j: nat, i: nat)
    requires i <= 24
  {
    && (forall c | 0 <= c < 86 :: PFormed(t, s, c, PTaken(c, j, i)))
    && (forall k | 0 <= k < SECTOR && !(P_AT <= k < Q_AT) :: t[k] == s[k])
  }

  // The two parity bytes of column c take up its symbol x.
  predicate PTakes(t0: Sector, t1: Sector, c: nat, x: bv8, e0: int, e1: int)
    requires c < 86
  {
    && t1[P_AT + c] == Plus(t0[P_AT + c], Product(x, e0))
    && t1[P_AT + 86 + c] == Plus(t0[P_AT + 86 + c], Product(x, e1))
  }

  lemma PStep(t0: Sector, t1: Sector, s: Sector, j: nat, i: nat, n: nat)
    requires j < 43 && i < 24 && n == i + 1 && PSoFar(t0, s, j, i) && |DP0| == |DP1| == 24
    requires PTakes(t0, t1, 2 * j, t0[INOUT + 86 * i + 2 * j], DP0[i], DP1[i])
    requires PTakes(t0, t1, 2 * j + 1, t0[INOUT + 86 * i + 2 * j + 1], DP0[i], DP1[i])
    requires forall k | 0 <= k < SECTOR
      && k !in {P_AT + 2 * j, P_AT + 2 * j + 1, P_AT + 86 + 2 * j, P_AT + 86 + 2 * j + 1} ::
      t1[k] == t0[k]
    ensures PSoFar(t1, s, j, n)
  {
    hide Product, Plus, DP0, DP1;
    forall c | 0 <= c < 86
      ensures PFormed(t1, s, c, PTaken(c, j, n))
    {
      assert PFormed(t0, s, c, PTaken(c, j, i));
      if c == 2 * j || c == 2 * j + 1 {
        assert PData(s, c)[i] == s[INOUT + 86 * i + c] == t0[INOUT + 86 * i + c];
        assert Parity(PData(s, c), DP0, n) == Plus(Parity(PData(s, c), DP0, i), Product(PData(s, c)[i], DP0[i]));
        assert Parity(PData(s, c), DP1, n) == Plus(Parity(PData(s, c), DP1, i), Product(PData(s, c)[i], DP1[i]));
      }
    }
  }

  lemma PNext(t: Sector, s: Sector, j: nat, n: nat)
    requires j < 43 && n == j + 1 && PSoFar(t, s, j, 24)
    ensures PSoFar(t, s, n, 0)
  {
    forall c | 0 <= c < 86
      ensures PFormed(t, s, c, PTaken(c, n, 0))
    {
      assert PFormed(t, s, c, PTaken(c, j, 24));
      assert PTaken(c, n, 0) == PTaken(c, j, 24);
    }
  }

  lemma PZero(t: Sector, s: Sector)
    requires forall k | P_AT <= k < Q_AT :: t[k] == 0
    requires forall k | 0 <= k < SECTOR && !(P_AT <= k < Q_AT) :: t[k] == s[k]
    ensures PSoFar(t, s, 0, 0)
  {
    PTable(0);
  }

  lemma PDone(t: Sector, s: Sector)
    requires PSoFar(t, s, 43, 0)
    ensures forall c | 0 <= c < 86 :: Codeword(PWord(t, c))
  {
    hide AllBalanced, Codeword;
    TablesBalanced();
    forall c | 0 <= c < 86
      ensures Codeword(PWord(t, c))
    {
      assert PFormed(t, s, c, PTaken(c, 43, 0));
      var d := PData(s, c);
      assert PWord(t, c) == d + [Parity(d, DP0, 24), Parity(d, DP1, 24)];
      Encoded(d, DP0, DP1);
    }
  }

  method AddPair(a: array<bv8>, at: nat, stride: nat, lsb: bv8, msb: bv8, e0: int, e1: int)
    requires 1 < stride && at + stride + 1 < a.Length
    modifies a
    ensures a[at] == Plus(old(a[at]), Product(lsb, e0)) && a[at + stride] == Plus(old(a[at + stride]), Product(lsb, e1))
    ensures a[at + 1] == Plus(old(a[at + 1]), Product(msb, e0))
    ensures a[at + stride + 1] == Plus(old(a[at + stride + 1]), Product(msb, e1))
    ensures forall k | 0 <= k < a.Length && k !in {at, at + 1, at + stride, at + stride + 1} :: a[k] == old(a[k])
  {
    hide Product, Plus;
    AddProducts(a, at, stride, lsb, e0, e1);
    AddProducts(a, at + 1, stride, msb, e0, e1);
  }

  method Fill(a: array<bv8>, lo: nat, hi: nat, v: bv8)
    requires lo <= hi <= a.Length
    modifies a
    ensures forall k | lo <= k < hi :: a[k] == v
    ensures forall k | 0 <= k < a.Length && !(lo <= k < hi) :: a[k] == old(a[k])
  {
    var k := lo;
    while k < hi
      invariant lo <= k <= hi
      invariant forall m | lo <= m < k :: a[m] == v
      invariant forall m | 0 <= m < a.Length && !(lo <= m < k) :: a[m] == old(a[m])
    {
      a[k] := v;
      k := k + 1;
    }
  }

  // The inner step of encode_L2_P: symbol i of columns 2j and 2j + 1.
  method AddPSymbol(a: array<bv8>, ghost s: Sector, p: nat, io: nat, i: nat, ghost j: nat)
    requires a.Length == SECTOR && j < 43 && i < 24 && p == P_AT + 2 * j && io == INOUT + 2 * j
    requires PSoFar(a[..], s, j, i)
    modifies a
    ensures PSoFar(a[..], s, j, i + 1)
  {
    hide PSoFar, Product, Plus;
    ghost var t := a[..];
    PLengths();
    AddPair(a, p, 86, a[io + i * 2 * 43], a[io + i * 2 * 43 + 1], DP0[i], DP1[i]);
    PStep(t, a[..], s, j, i, i + 1);
  }

  // encode_L2_P
  method EncodeP(a: array<bv8>)
    requires a.Length == SECTOR
    modifies a
    ensures forall k | 0 <= k < SECTOR && !(P_AT <= k < Q_AT) :: a[k] == old(a[k])
    ensures forall c | 0 <= c < 86 :: Codeword(PWord(a[..], c))
  {
    hide PSoFar, Codeword;
    ghost var s := a[..];
    Fill(a, P_AT, Q_AT, 0);
    PZero(a[..], s);
    var p, io, j := P_AT, INOUT, 0;
    while j < 43
      invariant 0 <= j <= 43 && p == P_AT + 2 * j && io == INOUT + 2 * j
      invariant PSoFar(a[..], s, j, 0)
    {
      var i := 0;
      while i < 24
        invariant 0 <= i <= 24 && PSoFar(a[..], s, j, i)
      {
        AddPSymbol(a, s, p, io, i, j);
        i := i + 1;
      }
      PNext(a[..], s, j, j + 1);
      p := p + 2;
      io := io + 2;
      j := j + 1;
    }
    PDone(a[..], s);
    PFrame(a[..], s);
  }

  lemma PLengths()
    ensures |DP0| == |DP1| == 24
  {
  }

  lemma PFrame(t: Sector, s: Sector)
    requires PSoFar(t, s, 43, 0)
    ensures forall k | 0 <= k < SECTOR && !(P_AT <= k < Q_AT) :: t[k] == s[k]
  {
  }

  // ---- the same for the diagonals ----

  ghost predicate QFormed(t: Sector, s: Sector, c: nat, n: nat)
    requires c < 52 && n <= 43
  {
    |DQ0| == |DQ1| == 43 && t[Q_AT + c] == Parity(QData(s, c), DQ0, n)
    && t[Q_AT + 52 + c] == Parity(QData(s, c), DQ1, n)
  }

  function QTaken(c: nat, j: nat, i: nat): nat { if c < 2 * j then 43 else if c < 2 * j + 2 then i else 0 }

  ghost predicate QSoFar(t: Sector, s: Sector, j: nat, i: nat)
    requires i <= 43
  {
    && (forall c | 0 <= c < 52 :: QFormed(t, s, c, QTaken(c, j, i)))
    && (forall k | 0 <= k < Q_AT :: t[k] == s[k])
  }

  predicate QTakes(t0: Sector, t1: Sector, c: nat, x: bv8, e0: int, e1: int)
    requires c < 52
  {
    && t1[Q_AT + c] == Plus(t0[Q_AT + c], Product(x, e0))
    && t1[Q_AT + 52 + c] == Plus(t0[Q_AT + 52 + c], Product(x, e1))
  }

  lemma QStep(t0: Sector, t1: Sector, s: Sector, j: nat, i: nat, n: nat)
    requires j < 26 && i < 43 && n == i + 1 && QSoFar(t0, s, j, i) && |DQ0| == |DQ1| == 43
    requires QTakes(t0, t1, 2 * j, t0[INOUT + QIndex(j, i, 0)], DQ0[i], DQ1[i])
    requires QTakes(t0, t1, 2 * j + 1, t0[INOUT + QIndex(j, i, 1)], DQ0[i], DQ1[i])
    requires forall k | 0 <= k < SECTOR
      && k !in {Q_AT + 2 * j, Q_AT + 2 * j + 1, Q_AT + 52 + 2 * j, Q_AT + 52 + 2 * j + 1} ::
      t1[k] == t0[k]
    ensures QSoFar(t1, s, j, n)
  {
    hide Product, Plus, DQ0, DQ1, QIndex;
    forall c | 0 <= c < 52
      ensures QFormed(t1, s, c, QTaken(c, j, n))
    {
      assert QFormed(t0, s, c, QTaken(c, j, i));
      if c == 2 * j || c == 2 * j + 1 {
        assert c / 2 == j && c % 2 == c - 2 * j;
        assert QData(s, c)[i] == s[INOUT + QIndex(j, i, c - 2 * j)] == t0[INOUT + QIndex(j, i, c - 2 * j)];
        assert Parity(QData(s, c), DQ0, n) == Plus(Parity(QData(s, c), DQ0, i), Product(QData(s, c)[i], DQ0[i]));
        assert Parity(QData(s, c), DQ1, n) == Plus(Parity(QData(s, c), DQ1, i), Product(QData(s, c)[i], DQ1[i]));
      }
    }
  }

  lemma QNext(t: Sector, s: Sector, j: nat, n: nat)
    requires j < 26 && n == j + 1 && QSoFar(t, s, j, 43)
    ensures QSoFar(t, s, n, 0)
  {
    forall c | 0 <= c < 52
      ensures QFormed(t, s, c, QTaken(c, n, 0))
    {
      assert QFormed(t, s, c, QTaken(c, j, 43));
      assert QTaken(c, n, 0) == QTaken(c, j, 43);
    }
  }

  lemma QZero(t: Sector, s: Sector)
    requires forall k | Q_AT <= k < SECTOR :: t[k] == 0
    requires forall k | 0 <= k < Q_AT :: t[k] == s[k]
    ensures QSoFar(t, s, 0, 0)
  {
    QTable(0);
  }

  lemma QDone(t: Sector, s: Sector)
    requires QSoFar(t, s, 26, 0)
    ensures forall c | 0 <= c < 52 :: Codeword(QWord(t, c))
    ensures forall k | 0 <= k < Q_AT :: t[k] == s[k]
  {
    hide AllBalanced, Codeword;
    TablesBalanced();
    forall c | 0 <= c < 52
      ensures Codeword(QWord(t, c))
    {
      assert QFormed(t, s, c, QTaken(c, 26, 0));
      var d := QData(s, c);
      assert QData(t, c) == d;
      assert QWord(t, c) == d + [Parity(d, DQ0, 43), Parity(d, DQ1, 43)];
      Encoded(d, DQ0, DQ1);
    }
  }

  lemma QLengths()
    ensures |DQ0| == |DQ1| == 43
  {
  }

  // The inner step of encode_L2_Q: symbol i of the diagonals 2j and 2j + 1.
  method AddQSymbol(a: array<bv8>, ghost s: Sector, q: nat, i: nat, j: nat)
    requires a.Length == SECTOR && j < 26 && i < 43 && q == Q_AT + 2 * j
    requires QSoFar(a[..], s, j, i)
    modifies a
    ensures QSoFar(a[..], s, j, i + 1)
  {
    hide QSoFar, Product, Plus, QIndex;
    ghost var t := a[..];
    QLengths();
    var lsb := a[INOUT + QIndex(j, i, 0)];
    var msb := a[INOUT + QIndex(j, i, 1)];
    AddPair(a, q, 52, lsb, msb, DQ0[i], DQ1[i]);
    QStep(t, a[..], s, j, i, i + 1);
  }

  // encode_L2_Q
  method EncodeQ(a: array<bv8>)
    requires a.Length == SECTOR
    modifies a
    ensures forall k | 0 <= k < Q_AT :: a[k] == old(a[k])
    ensures forall c | 0 <= c < 52 :: Codeword(QWord(a[..], c))
  {
    hide QSoFar, Codeword;
    ghost var s := a[..];
    Fill(a, Q_AT, SECTOR, 0);
    QZero(a[..], s);
    var q, j := Q_AT, 0;
    while j < 26
      invariant 0 <= j <= 26 && q == Q_AT + 2 * j
      invariant QSoFar(a[..], s, j, 0)
    {
      var i := 0;
      while i < 43
        invariant 0 <= i <= 43 && QSoFar(a[..], s, j, i)
      {
        AddQSymbol(a, s, q, i, j);
        i := i + 1;
      }
      QNext(a[..], s, j, j + 1);
      q := q + 2;
      j := j + 1;
    }
    QDone(a[..], s);
  }

  // ---- error detection code ----

  const POLY_EDC: bv32 := 0xD801_8001

  function PickWord(i: bv8,
    v0: bv32, v1: bv32, v2: bv32, v3: bv32, v4: bv32, v5: bv32, v6: bv32, v7: bv32,
    v8: bv32, v9: bv32, v10: bv32, v11: bv32, v12: bv32, v13: bv32, v14: bv32, v15: bv32): bv32
  {
    if i < 8 then
      if i < 4 then
        if i < 2 then (if i < 1 then v0 else v1) else (if i < 3 then v2 else v3)
      else
        if i < 6 then (if i < 5 then v4 else v5) else (if i < 7 then v6 else v7)
    else
      if i < 12 then
        if i < 10 then (if i < 9 then v8 else v9) else (if i < 11 then v10 else v11)
      else
        if i < 14 then (if i < 13 then v12 else v13) else (if i < 15 then v14 else v15)
  }

  // EDC_crctable
  function EdcTable(i: bv8): bv32 {
    if i < 128 then
      if i < 64 then
        if i < 32 then
          if i < 16 then
            PickWord(i, 0x0000_0000, 0x9091_0101, 0x9121_0201, 0x01B0_0300, 0x9241_0401, 0x02D0_0500,
                     0x0360_0600, 0x93F1_0701, 0x9481_0801, 0x0410_0900, 0x05A0_0A00, 0x9531_0B01, 0x06C0_0C00,
                     0x9651_0D01, 0x97E1_0E01, 0x0770_0F00)
          else
            PickWord(i - 16, 0x9901_1001, 0x0990_1100, 0x0820_1200, 0x98B1_1301, 0x0B40_1400, 0x9BD1_1501,
                     0x9A61_1601, 0x0AF0_1700, 0x0D80_1800, 0x9D11_1901, 0x9CA1_1A01, 0x0C30_1B00, 0x9FC1_1C01,
                     0x0F50_1D00, 0x0EE0_1E00, 0x9E71_1F01)
        else
          if i < 48 then
            PickWord(i - 32, 0x8201_2001, 0x1290_2100, 0x1320_2200, 0x83B1_2301, 0x1040_2400, 0x80D1_2501,
                     0x8161_2601, 0x11F0_2700, 0x1680_2800, 0x8611_2901, 0x87A1_2A01, 0x1730_2B00, 0x84C1_2C01,
                     0x1450_2D00, 0x15E0_2E00, 0x8571_2F01)
          else
            PickWord(i - 48, 0x1B00_3000, 0x8B91_3101, 0x8A21_3201, 0x1AB0_3300, 0x8941_3401, 0x19D0_3500,
                     0x1860_3600, 0x88F1_3701, 0x8F81_3801, 0x1F10_3900, 0x1EA0_3A00, 0x8E31_3B01, 0x1DC0_3C00,
                     0x8D51_3D01, 0x8CE1_3E01, 0x1C70_3F00)
      else
        if i < 96 then
          if i < 80 then
            PickWord(i - 64, 0xB401_4001, 0x2490_4100, 0x2520_4200, 0xB5B1_4301, 0x2640_4400, 0xB6D1_4501,
                     0xB761_4601, 0x27F0_4700, 0x2080_4800, 0xB011_4901, 0xB1A1_4A01, 0x2130_4B00, 0xB2C1_4C01,
                     0x2250_4D00, 0x23E0_4E00, 0xB371_4F01)
          else
            PickWord(i - 80, 0x2D00_5000, 0xBD91_5101, 0xBC21_5201, 0x2CB0_5300, 0xBF41_5401, 0x2FD0_5500,
                     0x2E60_5600, 0xBEF1_5701, 0xB981_5801, 0x2910_5900, 0x28A0_5A00, 0xB831_5B01, 0x2BC0_5C00,
                     0xBB51_5D01, 0xBAE1_5E01, 0x2A70_5F00)
        else
          if i < 112 then
            PickWord(i - 96, 0x3600_6000, 0xA691_6101, 0xA721_6201, 0x37B0_6300, 0xA441_6401, 0x34D0_6500,
                     0x3560_6600, 0xA5F1_6701, 0xA281_6801, 0x3210_6900, 0x33A0_6A00, 0xA331_6B01, 0x30C0_6C00,
                     0xA051_6D01, 0xA1E1_6E01, 0x3170_6F00)
          else
            PickWord(i - 112, 0xAF01_7001, 0x3F90_7100, 0x3E20_7200, 0xAEB1_7301, 0x3D40_7400, 0xADD1_7501,
                     0xAC61_7601, 0x3CF0_7700, 0x3B80_7800, 0xAB11_7901, 0xAAA1_7A01, 0x3A30_7B00, 0xA9C1_7C01,
                     0x3950_7D00, 0x38E0_7E00, 0xA871_7F01)
    else
      if i < 192 then
        if i < 160 then
          if i < 144 then
            PickWord(i - 128, 0xD801_8001, 0x4890_8100, 0x4920_8200, 0xD9B1_8301, 0x4A40_8400, 0xDAD1_8501,
                     0xDB61_8601, 0x4BF0_8700, 0x4C80_8800, 0xDC11_8901, 0xDDA1_8A01, 0x4D30_8B00, 0xDEC1_8C01,
                     0x4E50_8D00, 0x4FE0_8E00, 0xDF71_8F01)
          else
            PickWord(i - 144, 0x4100_9000, 0xD191_9101, 0xD021_9201, 0x40B0_9300, 0xD341_9401, 0x43D0_9500,
                     0x4260_9600, 0xD2F1_9701, 0xD581_9801, 0x4510_9900, 0x44A0_9A00, 0xD431_9B01, 0x47C0_9C00,
                     0xD751_9D01, 0xD6E1_9E01, 0x4670_9F00)
        else
          if i < 176 then
            PickWord(i - 160, 0x5A00_A000, 0xCA91_A101, 0xCB21_A201, 0x5BB0_A300, 0xC841_A401, 0x58D0_A500,
                     0x5960_A600, 0xC9F1_A701, 0xCE81_A801, 0x5E10_A900, 0x5FA0_AA00, 0xCF31_AB01, 0x5CC0_AC00,
                     0xCC51_AD01, 0xCDE1_AE01, 0x5D70_AF00)
          else
            PickWord(i - 176, 0xC301_B001, 0x5390_B100, 0x5220_B200, 0xC2B1_B301, 0x5140_B400, 0xC1D1_B501,
                     0xC061_B601, 0x50F0_B700, 0x5780_B800, 0xC711_B901, 0xC6A1_BA01, 0x5630_BB00, 0xC5C1_BC01,
                     0x5550_BD00, 0x54E0_BE00, 0xC471_BF01)
      else
        if i < 224 then
          if i < 208 then
            PickWord(i - 192, 0x6C00_C000, 0xFC91_C101, 0xFD21_C201, 0x6DB0_C300, 0xFE41_C401, 0x6ED0_C500,
                     0x6F60_C600, 0xFFF1_C701, 0xF881_C801, 0x6810_C900, 0x69A0_CA00, 0xF931_CB01, 0x6AC0_CC00,
                     0xFA51_CD01, 0xFBE1_CE01, 0x6B70_CF00)
          else
            PickWord(i - 208, 0xF501_D001, 0x6590_D100, 0x6420_D200, 0xF4B1_D301, 0x6740_D400, 0xF7D1_D501,
                     0xF661_D601, 0x66F0_D700, 0x6180_D800, 0xF111_D901, 0xF0A1_DA01, 0x6030_DB00, 0xF3C1_DC01,
                     0x6350_DD00, 0x62E0_DE00, 0xF271_DF01)
        else
          if i < 240 then
            PickWord(i - 224, 0xEE01_E001, 0x7E90_E100, 0x7F20_E200, 0xEFB1_E301, 0x7C40_E400, 0xECD1_E501,
                     0xED61_E601, 0x7DF0_E700, 0x7A80_E800, 0xEA11_E901, 0xEBA1_EA01, 0x7B30_EB00, 0xE8C1_EC01,
                     0x7850_ED00, 0x79E0_EE00, 0xE971_EF01)
          else
            PickWord(i - 240, 0x7700_F000, 0xE791_F101, 0xE621_F201, 0x76B0_F300, 0xE541_F401, 0x75D0_F500,
                     0x7460_F600, 0xE4F1_F701, 0xE381_F801, 0x7310_F900, 0x72A0_FA00, 0xE231_FB01, 0x71C0_FC00,
                     0xE151_FD01, 0xE0E1_FE01, 0x7070_FF00)
  }

  function EdcShift(c: bv32): bv32 { if c & 1 == 1 then (c >> 1) ^ 0xD801_8001 else c >> 1 }

  function EdcShifts(c: bv32): bv32 {
    EdcShift(EdcShift(EdcShift(EdcShift(EdcShift(EdcShift(EdcShift(EdcShift(c))))))))
  }

  lemma EdcTableLow(i: bv8)
    requires i < 0x80
    ensures EdcTable(i) == EdcShifts(i as bv32)
  {
  }

  lemma EdcTableHigh(i: bv8)
    requires i >= 0x80
    ensures EdcTable(i) == EdcShifts(i as bv32)
  {
  }

  lemma EdcShiftIsShift(c: bv32)
    ensures EdcShift(c) == Crc.Shift(Crc.Right32(POLY_EDC), c)
  {
    hide Crc.Shift, Crc.Right32;
    Crc.Shift32(POLY_EDC, c);
  }

  lemma TwoShifts<T>(r: Crc.Register<T>, c: T, n: nat)
    ensures Crc.Shifts(r, c, n + 2) == Crc.Shifts(r, Crc.Shift(r, Crc.Shift(r, c)), n)
  {
    hide Crc.Shift;
  }

  lemma NoShifts<T>(r: Crc.Register<T>, c: T)
    ensures Crc.Shifts(r, c, 0) == c
  {
  }

  lemma EdcShiftsTwo(c: bv32, n: nat)
    ensures Crc.Shifts(Crc.Right32(POLY_EDC), c, n + 2) == Crc.Shifts(Crc.Right32(POLY_EDC), EdcShift(EdcShift(c)), n)
  {
    hide Crc.Shift, Crc.Shifts, Crc.Right32, EdcShift;
    EdcShiftIsShift(c);
    EdcShiftIsShift(EdcShift(c));
    TwoShifts(Crc.Right32(POLY_EDC), c, n);
  }

  // Every entry of the table is what eight steps of the division make of its index.
  lemma EdcTableIsRight(i: bv8)
    ensures EdcTable(i) == Crc.Shifts(Crc.Right32(POLY_EDC), i as bv32, 8)
  {
    hide Crc.Shift, Crc.Shifts, Crc.Right32, EdcShift, EdcTable;
    if i < 0x80 { EdcTableLow(i); } else { EdcTableHigh(i); }
    var c := i as bv32;
    var c2 := EdcShift(EdcShift(c));
    var c4 := EdcShift(EdcShift(c2));
    var c6 := EdcShift(EdcShift(c4));
    EdcShiftsTwo(c, 6);
    EdcShiftsTwo(c2, 4);
    EdcShiftsTwo(c4, 2);
    EdcShiftsTwo(c6, 0);
    NoShifts(Crc.Right32(POLY_EDC), EdcShift(EdcShift(c6)));
  }

  lemma EdcIndex(x: bv32, b: bv8)
    ensures (x ^ (b as bv32)) & 0xff <= 0xff
    ensures (((x ^ (b as bv32)) & 0xff) as bv8) as bv32 == Crc.Out32(Crc.Xor32(x, Crc.Place32(b)))
  {
  }

  function Edc(s: seq<bv8>): bv32 { Crc.Divide(Crc.Right32(POLY_EDC), 0, s) }

  lemma EdcLookup(x: bv32, b: bv8, i: bv8)
    requires i as bv32 == Crc.Out32(Crc.Xor32(x, Crc.Place32(b)))
    ensures Crc.Feed(Crc.Right32(POLY_EDC), x, b) == Crc.Xor32(EdcTable(i), x >> 8)
  {
    hide Crc.Feed, Crc.Shifts, Crc.Right32, Crc.Lawful, EdcTable, Crc.Out32, Crc.Xor32, Crc.Place32;
    EdcTableIsRight(i);
    Crc.Right32Lawful(POLY_EDC);
    Crc.Feed32(POLY_EDC, x, b);
  }

  function EdcStep(c: bv32, b: bv8): (r: bv32)
    ensures r == Crc.Feed(Crc.Right32(POLY_EDC), c, b)
  {
    hide Crc.Feed, Crc.Shifts, Crc.Right32, Crc.Lawful, EdcTable, Crc.Out32, Crc.Place32;
    EdcIndex(c, b);
    EdcLookup(c, b, ((c ^ (b as bv32)) & 0xff) as bv8);
    Crc.Xor32(EdcTable(((c ^ (b as bv32)) & 0xff) as bv8), c >> 8)
  }

  method BuildEdc(a: array<bv8>, from: nat, upto: int) returns (result: bv32)
    requires from <= upto + 1 <= a.Length
    ensures result == Edc(a[from..upto + 1])
  {
    hide Crc.Feed, Crc.Right32;
    result := 0;
    var k := from;
    while k <= upto
      invariant from <= k <= upto + 1
      invariant result == Edc(a[from..k])
    {
      result := EdcStep(result, a[k]);
      assert a[from..k + 1][..k - from] == a[from..k];
      k := k + 1;
    }
  }

  function Byte0(v: bv32): bv8 { (v & 0xff) as bv8 }
  function Byte1(v: bv32): bv8 { ((v >> 8) & 0xff) as bv8 }
  function Byte2(v: bv32): bv8 { ((v >> 16) & 0xff) as bv8 }
  function Byte3(v: bv32): bv8 { ((v >> 24) & 0xff) as bv8 }

  lemma OutOfOwn(c: bv32)
    ensures Crc.Out32(Crc.Xor32(c, Crc.Place32(Byte0(c)))) == 0
  {
  }

  lemma {:induction false} ZeroShifts(n: nat)
    ensures Crc.Shifts(Crc.Right32(POLY_EDC), 0, n) == 0
  {
    hide Crc.Right32, Crc.Shift;
    Crc.Shift32(POLY_EDC, 0);
    if n > 0 { ZeroShifts(n - 1); }
  }

  lemma XorZero32(c: bv32)
    ensures Crc.Xor32(0, c) == c
  {
  }

  function Rest(c: bv32): bv32 { c >> 8 }

  // A register fed its own lowest byte only moves on.
  lemma OwnByte(c: bv32)
    ensures Crc.Feed(Crc.Right32(POLY_EDC), c, Byte0(c)) == Rest(c)
  {
    hide Crc.Feed, Crc.Shifts, Crc.Right32, Crc.Lawful, Crc.Out32, Crc.Xor32, Crc.Place32, Byte0;
    Crc.Right32Lawful(POLY_EDC);
    Crc.Feed32(POLY_EDC, c, Byte0(c));
    OutOfOwn(c);
    ZeroShifts(8);
    XorZero32(c >> 8);
  }

  lemma ByteAfter(v: bv32)
    ensures Byte0(Rest(v)) == Byte1(v) && Byte0(Rest(Rest(v))) == Byte2(v) && Byte0(Rest(Rest(Rest(v)))) == Byte3(v)
    ensures Rest(Rest(Rest(Rest(v)))) == 0
  {
  }

  // A message followed by its own EDC has the EDC zero.
  lemma EdcOfOwn(s: seq<bv8>)
    ensures var v := Edc(s); Edc(s + [Byte0(v), Byte1(v), Byte2(v), Byte3(v)]) == 0
  {
    hide Crc.Feed, Crc.Right32, Byte0, Byte1, Byte2, Byte3, Rest, Crc.Divide;
    var v := Edc(s);
    ByteAfter(v);
    OwnByte(v);
    OwnByte(Rest(v));
    OwnByte(Rest(Rest(v)));
    OwnByte(Rest(Rest(Rest(v))));
    Crc.DivideConcat(Crc.Right32(POLY_EDC), 0, s, [Byte0(v), Byte1(v), Byte2(v), Byte3(v)]);
    DivideFour(v, Rest(v), Rest(Rest(v)), Rest(Rest(Rest(v))), Byte0(v), Byte1(v), Byte2(v), Byte3(v));
  }

  lemma DivideFour(c: bv32, c1: bv32, c2: bv32, c3: bv32, b0: bv8, b1: bv8, b2: bv8, b3: bv8)
    requires var r := Crc.Right32(POLY_EDC);
      Crc.Feed(r, c, b0) == c1 && Crc.Feed(r, c1, b1) == c2 && Crc.Feed(r, c2, b2) == c3 && Crc.Feed(r, c3, b3) == 0
    ensures Crc.Divide(Crc.Right32(POLY_EDC), c, [b0, b1, b2, b3]) == 0
  {
    hide Crc.Feed, Crc.Right32;
    var r := Crc.Right32(POLY_EDC);
    assert [b0, b1, b2, b3][..3] == [b0, b1, b2] && [b0, b1, b2][..2] == [b0, b1];
    assert [b0, b1][..1] == [b0] && [b0][..0] == [];
    assert Crc.Divide(r, c, [b0]) == c1;
    assert Crc.Divide(r, c, [b0, b1]) == c2;
    assert Crc.Divide(r, c, [b0, b1, b2]) == c3;
  }

  // ---- a whole sector ----

  function ToByte(x: int): bv8 { (x % 256) as bv8 }

  // The C operators, for either sign.
  function Quotient(x: int, y: int): int
    requires y > 0
  {
    if x >= 0 then x / y else -(-x / y)
  }

  function Remainder(x: int, y: int): int
    requires y > 0
  {
    x - y * Quotient(x, y)
  }

  function ToBcd(v: int): int
    requires 0 <= v < 256
  {
    (v / 10 * 16) % 256 + v % 10
  }

  function FromBcd(v: int): int { v / 16 * 10 + v % 16 }

  // The header holds minutes, seconds and frames, each in two decimal digits.
  function Minutes(address: int): int { ToBcd(Quotient(address, 60 * 75) % 256) }
  function Seconds(address: int): int { ToBcd(Remainder(Quotient(address, 75), 60) % 256) }
  function Frames(address: int): int { ToBcd(Remainder(address, 75) % 256) }

  lemma AddressInHeader(address: int)
    requires 0 <= address < 100 * 60 * 75
    ensures FromBcd(Minutes(address)) * 4500 + FromBcd(Seconds(address)) * 75 + FromBcd(Frames(address)) == address
    ensures FromBcd(Seconds(address)) < 60 && FromBcd(Frames(address)) < 75
  {
    hide ToBcd, FromBcd;
    var q := address / 75;
    MinutesOf(address);
    Digits(q / 60);
    Digits(q % 60);
    Digits(address % 75);
    Small(q / 60);
    Small(q % 60);
    Small(address % 75);
  }

  lemma MinutesOf(address: nat)
    ensures address / 4500 == address / 75 / 60
  {
    var q := address / 75;
    assert address == 4500 * (q / 60) + (75 * (q % 60) + address % 75);
  }

  lemma Small(v: int)
    requires 0 <= v < 256
    ensures v % 256 == v
  {
  }

  lemma Digits(v: int)
    requires 0 <= v < 100
    ensures FromBcd(ToBcd(v)) == v
  {
    var h, l := v / 10, v % 10;
    Small(h * 16);
    assert (h * 16 + l) / 16 == h && (h * 16 + l) % 16 == l;
  }

  // The bytes in front of the parity, for a sector that had the contents s.
  ghost predicate Framed(t: Sector, s: Sector, address: int) {
    && t[0] == 0 && (forall k | 1 <= k < 12 :: t[k] == 0xff)
    && t[12] == ToByte(Minutes(address)) && t[13] == ToByte(Seconds(address)) && t[14] == ToByte(Frames(address))
    && t[15] == 1
    && (forall k | 16 <= k < EDC_AT :: t[k] == s[k])
    && (forall k | EDC_AT + 4 <= k < P_AT :: t[k] == 0)
  }

  lemma BcdIsByte(v: int)
    requires 0 <= v < 256
    ensures 0 <= ToBcd(v) < 256
  {
  }

  lemma HeaderBytes(address: int)
    ensures 0 <= Minutes(address) < 256 && 0 <= Seconds(address) < 256 && 0 <= Frames(address) < 256
  {
    hide ToBcd, Quotient, Remainder;
    BcdIsByte(Quotient(address, 60 * 75) % 256);
    BcdIsByte(Remainder(Quotient(address, 75), 60) % 256);
    BcdIsByte(Remainder(address, 75) % 256);
  }

  lemma NextByte(b: bv8)
    requires b != 0xff
    ensures (b + 1) as int == b as int + 1
  {
  }

  lemma ForthAndBack(b: bv8)
    ensures (b as int) as bv8 == b
  {
  }

  lemma {:induction false} BackAndForth(x: int)
    requires 0 <= x < 256
    ensures (x as bv8) as int == x
  {
    if x > 0 {
      BackAndForth(x - 1);
      var b := (x - 1) as bv8;
      NextByte(b);
      ForthAndBack(b + 1);
    }
  }

  lemma ByteIs(x: int)
    requires 0 <= x < 256
    ensures ToByte(x) as int == x
  {
    assert x % 256 == x;
    BackAndForth(x);
  }

  // The three bytes behind the sync pattern are the digits of the address.
  lemma HeaderRead(t: Sector, s: Sector, address: int)
    requires Framed(t, s, address) && 0 <= address < 100 * 60 * 75
    ensures FromBcd(t[12] as int) * 4500 + FromBcd(t[13] as int) * 75 + FromBcd(t[14] as int) == address
    ensures FromBcd(t[13] as int) < 60 && FromBcd(t[14] as int) < 75
  {
    hide FromBcd, ToByte, Minutes, Seconds, Frames;
    AddressInHeader(address);
    HeaderBytes(address);
    ByteIs(Minutes(address));
    ByteIs(Seconds(address));
    ByteIs(Frames(address));
  }

  // Sync and header.
  method Header(a: array<bv8>, address: int)
    requires a.Length == SECTOR
    modifies a
    ensures a[0] == 0 && forall k | 1 <= k < 12 :: a[k] == 0xff
    ensures a[12] == ToByte(Minutes(address)) && a[13] == ToByte(Seconds(address)) && a[14] == ToByte(Frames(address))
      && a[15] == 1
    ensures forall k | 16 <= k < SECTOR :: a[k] == old(a[k])
  {
    hide ToByte, Minutes, Seconds, Frames;
    a[0] := 0;
    Fill(a, 1, 12, 0xff);
    a[12] := ToByte(Minutes(address));
    a[13] := ToByte(Seconds(address));
    a[14] := ToByte(Frames(address));
    a[15] := 1;
  }

  // The EDC of everything before it, and the zeros behind it.
  method StoreEdc(a: array<bv8>)
    requires a.Length == SECTOR
    modifies a
    ensures forall k | 0 <= k < EDC_AT :: a[k] == old(a[k])
    ensures forall k | EDC_AT + 4 <= k < P_AT :: a[k] == 0
    ensures Edc(a[..EDC_AT + 4]) == 0
  {
    hide Edc, Byte0, Byte1, Byte2, Byte3;
    var v := BuildEdc(a, 0, 16 + 2048 - 1);
    ghost var s := a[..EDC_AT];
    assert a[0..EDC_AT] == s;
    a[EDC_AT] := Byte0(v);
    a[EDC_AT + 1] := Byte1(v);
    a[EDC_AT + 2] := Byte2(v);
    a[EDC_AT + 3] := Byte3(v);
    Fill(a, EDC_AT + 4, P_AT, 0);
    EdcOfOwn(s);
    assert a[..EDC_AT + 4] == s + [Byte0(v), Byte1(v), Byte2(v), Byte3(v)];
  }

  // encode_l2: afterwards the sector carries its user data unchanged, an EDC that checks, and
  // parity with which every P and every Q codeword satisfies both equations.
  method EncodeL2(a: array<bv8>, address: int)
    requires a.Length == SECTOR
    modifies a
    ensures Framed(a[..], old(a[..]), address) && Edc(a[..EDC_AT + 4]) == 0
    ensures forall c | 0 <= c < 86 :: Codeword(PWord(a[..], c))
    ensures forall c | 0 <= c < 52 :: Codeword(QWord(a[..], c))
  {
    hide Edc, Codeword, ToByte, Minutes, Seconds, Frames;
    Header(a, address);
    StoreEdc(a);
    ghost var t := a[..];
    EncodeP(a);
    assert a[..EDC_AT + 4] == t[..EDC_AT + 4];
    ghost var u := a[..];
    EncodeQ(a);
    assert a[..EDC_AT + 4] == t[..EDC_AT + 4];
    forall c | 0 <= c < 86
      ensures Codeword(PWord(a[..], c))
    {
      assert PWord(a[..], c) == PWord(u, c);
    }
  }
}
