/**
 * JavaScript's `Math.round` on exact reals: the nearest integer, halves
 * rounded up, i.e. floor(x + 1/2).  Used for the compatibility score and
 * for campaign progression.
 */
module Rounding {

  /** `Math.round(x)`. */
  function Round(x: real): (n: int)
    ensures n as real <= x + 0.5 < n as real + 1.0
  {
    (x + 0.5).Floor
  }

  /** Rounding is monotone. */
  lemma RoundMonotone(x: real, y: real)
    requires x <= y
    ensures Round(x) <= Round(y)
  {
  }

  /** A value between two integers rounds to a value between them. */
  lemma RoundBetween(x: real, lo: int, hi: int)
    requires lo as real <= x <= hi as real
    ensures lo <= Round(x) <= hi
  {
    RoundMonotone(lo as real, x);
    RoundMonotone(x, hi as real);
  }

  /** `round(100 * part / whole)` with `0 <= part <= whole`, the shape of both
      the final score and the progression, lies in 0..100. */
  lemma PercentBounds(part: real, whole: real)
    requires whole > 0.0 && 0.0 <= part <= whole
    ensures 0 <= Round(part / whole * 100.0) <= 100
  {
    assert part / whole <= 1.0 by {
      assert part / whole * whole == part;
    }
    RoundBetween(part / whole * 100.0, 0, 100);
  }

  /** Comparing a percentage `d / n * 100` with a bound, without the division. */
  lemma ScaledAtLeast(d: real, n: real, c: real)
    requires n > 0.0
    ensures d / n * 100.0 >= c <==> 100.0 * d >= c * n
  {
    var q := d / n;
    assert q * n == d;
    assert (q * 100.0 - c) * n == 100.0 * d - c * n;
    if q * 100.0 - c > 0.0 { assert (q * 100.0 - c) * n > 0.0; }
    if q * 100.0 - c < 0.0 { assert (q * 100.0 - c) * n < 0.0; }
  }
}
