// Taking an element out of a sequence.

module Sequences {
  function Without<T(==, !new)>(s: seq<T>, x: T): (r: seq<T>)
    ensures forall y :: y in r <==> y in s && y != x
    ensures |r| <= |s|
  {
    if s == [] then [] else (if s[0] == x then [] else [s[0]]) + Without(s[1..], x)
  }

  predicate Distinct<T(==)>(s: seq<T>) {
    forall j, k | 0 <= j < k < |s| :: s[j] != s[k]
  }

  lemma {:induction false} WithoutDistinct<T(!new)>(s: seq<T>, x: T)
    requires Distinct(s)
    ensures Distinct(Without(s, x))
  {
    if s != [] {
      WithoutDistinct(s[1..], x);
      var r := Without(s[1..], x);
      assert s[0] !in s[1..];
      assert s[0] !in r;
    }
  }

  lemma {:induction false} WithoutAbsent<T(!new)>(s: seq<T>, n: T)
    requires n !in s
    ensures Without(s, n) == s
  {
    if s != [] { WithoutAbsent(s[1..], n); }
  }

  function Cut<T>(s: seq<T>, i: nat): seq<T>
    requires i < |s|
  {
    s[..i] + s[i + 1..]
  }

  lemma {:induction false} WithoutIsCut<T(!new)>(s: seq<T>, i: nat)
    requires Distinct(s) && i < |s|
    ensures Without(s, s[i]) == Cut(s, i)
  {
    var rest := s[1..];
    if i == 0 {
      WithoutAbsent(rest, s[0]);
      assert Cut(s, 0) == rest;
    } else {
      assert forall j | 0 <= j < |rest| :: rest[j] == s[j + 1];
      WithoutIsCut(rest, i - 1);
      assert Cut(s, i) == [s[0]] + Cut(rest, i - 1);
    }
  }
}
