/** `Math.round` over exact rationals. */
module Numbers {

  lemma MulLeft(d: int, a: int, b: int)
    requires d >= 0 && a <= b
    ensures d * a <= d * b
  {
    assert d * b - d * a == d * (b - a);
  }

  /** `Math.round(n / d)`: the nearest integer to `n / d`, halves rounded up. */
  function RoundDiv(n: int, d: int): (r: int)
    requires d > 0
    ensures 2 * d * r <= 2 * n + d < 2 * d * r + 2 * d
  {
    (2 * n + d) / (2 * d)
  }

  /** Rounding a quotient that lies in `[lo, hi]` stays in `[lo, hi]`. */
  lemma RoundDivBounds(n: int, d: int, lo: int, hi: int)
    requires d > 0 && lo * d <= n <= hi * d
    ensures lo <= RoundDiv(n, d) <= hi
  {
    var r := RoundDiv(n, d);
    if r > hi {
      MulLeft(2 * d, hi + 1, r);
    }
    if r < lo {
      MulLeft(2 * d, r + 1, lo);
    }
  }
}
