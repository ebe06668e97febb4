/** JavaScript's `Math.round(x / n)` for an integer `x` and a positive count `n`. */
module JsMath {

  /** Math.round rounds to the nearest integer and breaks ties upward, that is
      floor(x / n + 1/2); Dafny's division by a positive divisor is the floor. */
  function RoundDiv(x: int, n: int): (r: int)
    requires n > 0
    ensures 2 * n * r <= 2 * x + n < 2 * n * r + 2 * n
  {
    (2 * x + n) / (2 * n)
  }

  /** The rounded mean stays within the bounds of the values it averages. */
  lemma RoundDivBetween(x: int, n: int, lo: int, hi: int)
    requires n > 0
    requires lo * n <= x <= hi * n
    ensures lo <= RoundDiv(x, n) <= hi
  {
    var r := RoundDiv(x, n);
    if r < lo {
      assert 2 * n * r + 2 * n <= 2 * n * lo by {
        assert r + 1 <= lo;
        MulMono(2 * n, r + 1, lo);
      }
    }
    if r > hi {
      assert 2 * n * (hi + 1) <= 2 * n * r by {
        MulMono(2 * n, hi + 1, r);
      }
    }
  }

  lemma MulMono(k: int, a: int, b: int)
    requires k >= 0 && a <= b
    ensures k * a <= k * b
  {
    assert k * b - k * a == k * (b - a);
  }
}
