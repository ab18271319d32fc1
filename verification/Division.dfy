// Quotient and remainder, which the timers, the samples, the event table and the line engine share.

module Division {

  lemma SmallMultiple(k: int, d: int, m: int)
    requires d > 0 && k * d == m && -d < m < d
    ensures k == 0
  {
  }

  lemma Factor(p: int, q: int, d: int)
    ensures p * d - q * d == (p - q) * d
  {
  }

  lemma Negated(q: int, d: int)
    ensures -(q * d) == (-q) * d
  {
  }

  // Only the quotient and the remainder write x in this way.
  lemma Unique(x: int, d: int, q: int, r: int)
    requires 0 <= r < d && x == q * d + r
    ensures x / d == q && x % d == r
  {
    var e, f := x / d, x % d;
    assert x == e * d + f;
    Factor(e, q, d);
    SmallMultiple(e - q, d, r - f);
  }
}
