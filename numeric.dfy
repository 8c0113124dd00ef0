// JavaScript's `Math.round` on the values the screens compute: a real
// (trip time) and an exact ratio of two integers (occupancy, average).

module Numeric {

  /** `Math.round`: the nearest integer, with halves rounded up. */
  function Round(x: real): (r: int)
    ensures x - 0.5 < r as real <= x + 0.5
  {
    (x + 0.5).Floor
  }

  /** `Math.round(n / d)` computed exactly on integers. */
  function RoundRatio(n: int, d: int): (r: int)
    requires d != 0
    ensures d > 0 ==> 2 * d * r - d <= 2 * n < 2 * d * r + d
    ensures d < 0 ==> 2 * d * r - d >= 2 * n > 2 * d * r + d
  {
    if d > 0 then (2 * n + d) / (2 * d) else (-2 * n - d) / (-2 * d)
  }

  /** The integer version agrees with rounding the real quotient. */
  lemma RoundRatioIsRound(n: int, d: int)
    requires d > 0
    ensures RoundRatio(n, d) == Round(n as real / d as real)
  {
    var r := RoundRatio(n, d);
    assert d * (2 * r - 1) == 2 * d * r - d && d * (2 * r + 1) == 2 * d * r + d;
    QuotientBounds(2 * n, d, 2 * r - 1, 2 * r + 1);
    var q := n as real / d as real;
    assert (2 * n) as real / d as real == 2.0 * q;
    FloorOf(q + 0.5, r);
  }

  /** `lo <= a / d < hi` for exact division, from the integer products. */
  lemma QuotientBounds(a: int, d: int, lo: int, hi: int)
    requires d > 0 && d * lo <= a < d * hi
    ensures lo as real <= a as real / d as real < hi as real
  {
    var q, dd := a as real / d as real, d as real;
    CastProduct(d, lo);
    CastProduct(d, hi);
    assert q * dd == a as real;
    CancelPositive(lo as real, q, dd);
    CancelPositiveStrict(q, hi as real, dd);
  }

  lemma FloorOf(x: real, k: int)
    requires k as real <= x < k as real + 1.0
    ensures x.Floor == k
  {
  }

  lemma CastProduct(a: int, b: int)
    ensures (a * b) as real == (a as real) * (b as real)
  {
  }

  lemma CancelPositive(a: real, b: real, c: real)
    requires c > 0.0 && a * c <= b * c
    ensures a <= b
  {
  }

  lemma CancelPositiveStrict(a: real, b: real, c: real)
    requires c > 0.0 && a * c < b * c
    ensures a < b
  {
  }

  /** Order of `Round`: a larger argument never rounds to a smaller integer. */
  lemma RoundMonotone(x: real, y: real)
    requires x <= y
    ensures Round(x) <= Round(y)
  {
  }

  /** A ratio of `n` to a positive `d` that lies in `[lo, hi]` rounds to an integer in `[lo, hi]`. */
  lemma RoundRatioWithin(n: int, d: int, lo: int, hi: int)
    requires d > 0 && d * lo <= n <= d * hi
    ensures lo <= RoundRatio(n, d) <= hi
  {
    var r := RoundRatio(n, d);
    assert d * (2 * r - 1 - 2 * hi) == 2 * d * r - d - 2 * (d * hi);
    assert d * (2 * lo - 2 * r - 1) == 2 * (d * lo) - 2 * d * r - d;
    MulSign(d, 2 * r - 1 - 2 * hi);
    MulSign(d, 2 * lo - 2 * r - 1);
  }

  lemma MulSign(c: int, x: int)
    requires c > 0
    ensures c * x <= 0 ==> x <= 0
    ensures c * x < 0 ==> x < 0
  {
    if x > 0 {
      assert c * x >= c;
    } else {
      assert c * x <= 0;
    }
  }
}
