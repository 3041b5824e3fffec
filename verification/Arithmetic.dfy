/** Products and quotients of integers. */
module Arithmetic {

  lemma MulIncreases(d: int, a: int, b: int)
    requires d > 0 && a > b
    ensures d * a >= d * b + d
  {
    assert d * a == d * (a - b - 1) + d * b + d;
    assert d * (a - b - 1) >= 0;
  }

  lemma QuotientBound(x: int, d: int, q: int)
    requires d > 0 && x <= d * q
    ensures x / d <= q
  {
    if x / d > q {
      MulIncreases(d, x / d, q);
    }
  }

  lemma QuotientUnique(x: int, d: int, q: int, r: int)
    requires d > 0 && x == d * q + r && 0 <= r < d
    ensures x / d == q
  {
    if x / d > q {
      MulIncreases(d, x / d, q);
    } else if x / d < q {
      MulIncreases(d, q, x / d);
    }
  }

  lemma QuotientStep(x: int, d: int)
    requires d > 0
    ensures (x + d) / d == x / d + 1
  {
    assert d * (x / d + 1) == d * (x / d) + d;
    QuotientUnique(x + d, d, x / d + 1, x % d);
  }

  lemma QuotientOne(x: int, d: int)
    requires 0 < x <= d
    ensures (x + d - 1) / d == 1
  {
    QuotientUnique(x + d - 1, d, 1, x - 1);
  }

  lemma QuotientAtLeast(x: int, d: int, q: int)
    requires d > 0 && d * q <= x
    ensures q <= x / d
  {
    if x / d < q {
      MulIncreases(d, q, x / d);
    }
  }
}
