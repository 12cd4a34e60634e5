/**
 * The arithmetic the telemetry scorers use. JavaScript numbers are modelled as
 * exact reals: `reduce((a, b) => a + b, 0)` is `Sum`, the guarded division by the
 * length is `Mean`, and `Math.round` is `Round`, rounding halves upwards.
 */
module JsNumbers {

  /** `s.reduce((a, b) => a + b, 0)`, folding from the left. */
  function Sum(s: seq<real>): real
    decreases |s|
  {
    if s == [] then 0.0 else Sum(s[..|s| - 1]) + s[|s| - 1]
  }

  /** The arithmetic mean, and 0 for an empty list (`s.length ? sum / s.length : 0`). */
  function Mean(s: seq<real>): (r: real)
    ensures |s| > 0 ==> r * |s| as real == Sum(s)
    ensures s == [] ==> r == 0.0
  {
    if |s| > 0 then Sum(s) / |s| as real else 0.0
  }

  /** `Math.round(x)`: the integer nearest to `x`, halves going up. */
  function Round(x: real): (r: int)
    ensures x - 0.5 < r as real <= x + 0.5
  {
    (x + 0.5).Floor
  }

  /** Rounding never reverses the order of two numbers. */
  lemma RoundMonotone(x: real, y: real)
    requires x <= y
    ensures Round(x) <= Round(y)
  {
  }

  /** Whole numbers round to themselves. */
  lemma RoundWhole(n: int)
    ensures Round(n as real) == n
  {
  }

  /** A sum of `|s|` terms that all lie in `[lo, hi]` lies in `[|s| * lo, |s| * hi]`. */
  lemma {:induction false} SumWithin(s: seq<real>, lo: real, hi: real)
    requires forall i :: 0 <= i < |s| ==> lo <= s[i] <= hi
    ensures |s| as real * lo <= Sum(s) <= |s| as real * hi
    decreases |s|
  {
    if s != [] {
      SumWithin(s[..|s| - 1], lo, hi);
    }
  }

  /** The mean of a non-empty list lies between any lower and upper bound of its elements. */
  lemma MeanWithin(s: seq<real>, lo: real, hi: real)
    requires |s| > 0
    requires forall i :: 0 <= i < |s| ==> lo <= s[i] <= hi
    ensures lo <= Mean(s) <= hi
  {
    SumWithin(s, lo, hi);
    var n := |s| as real;
    assert Mean(s) == Sum(s) / n;
    assert (lo * n) / n == lo && (hi * n) / n == hi;
    assert (lo * n) / n <= Sum(s) / n <= (hi * n) / n;
  }

  /** Comparing a quotient by a positive divisor is comparing the dividend with the
      scaled bound. */
  lemma DivBelow(a: real, n: real, b: real)
    requires n > 0.0
    ensures a / n < b <==> a < b * n
  {
    var q := a / n;
    assert q * n == a;
    if q < b {
      assert (b - q) * n > 0.0;
    } else {
      assert (q - b) * n >= 0.0;
    }
  }
}
