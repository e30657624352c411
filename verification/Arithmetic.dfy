/** Division and multiples, as far as the search over minutes and the pages of a scan need them. */
module Arithmetic {
  lemma MulLe(a: int, b: int, d: int)
    requires a <= b && d > 0
    ensures a * d <= b * d
  {
  }

  lemma DivIs(t: int, q: int, d: int)
    requires d > 0 && q * d <= t < (q + 1) * d
    ensures t / d == q
  {
    DivBounds(t, d);
    if t / d < q {
      MulLe(t / d + 1, q, d);
    } else if t / d > q {
      MulLe(q + 1, t / d, d);
    }
  }

  lemma DivBounds(t: int, d: int)
    requires d > 0
    ensures t / d * d <= t < (t / d + 1) * d
  {
    assert t / d * d + t % d == t;
  }

  /** A multiple and the next one. */
  lemma NextMultiple(m: nat, d: nat)
    requires d > 0 && m % d == 0
    ensures (m + d) % d == 0
  {
    DivBounds(m, d);
    DivIs(m + d, m / d + 1, d);
    assert (m + d) / d * d + (m + d) % d == m + d;
  }

  /** A positive multiple and the one before. */
  lemma PreviousMultiple(m: nat, d: nat)
    requires d > 0 && m > 0 && m % d == 0
    ensures m >= d && (m - d) % d == 0
  {
    DivBounds(m, d);
    if m < d { DivIs(m, 0, d); }
    DivIs(m - d, m / d - 1, d);
    assert (m - d) / d * d + (m - d) % d == m - d;
  }
}
