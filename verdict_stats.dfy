/**
 * Score maps (`map[string]float64` in the Go aggregator) and the order-free
 * statistics the aggregator computes over them: total, mean and population
 * variance.  Go visits map entries in an unspecified order; the sums here
 * are over key sets, so they do not depend on that order.
 */
module VerdictStats {
  import opened Common

  type Scores = map<string, real>

  /** Go's `m[k]` on a float map: the zero value for a missing key. */
  function At(m: Scores, k: string): real
  {
    if k in m then m[k] else 0.0
  }

  function ValueOf(m: Scores): string -> real
  {
    k => At(m, k)
  }

  function SquaredDeviationOf(m: Scores, mu: real): string -> real
  {
    k => (At(m, k) - mu) * (At(m, k) - mu)
  }

  ghost function Total(m: Scores): real
  {
    Sum(m.Keys, ValueOf(m))
  }

  ghost function Mean(m: Scores): real
    requires |m| > 0
  {
    Total(m) / |m| as real
  }

  /** Population variance: the mean squared deviation from the mean. */
  ghost function Variance(m: Scores): real
    requires |m| > 0
  {
    Sum(m.Keys, SquaredDeviationOf(m, Mean(m))) / |m| as real
  }

  /** A quotient of a sum of n terms by n lies between the bounds of the terms. */
  lemma AverageBounds(total: real, n: nat, lo: real, hi: real)
    requires n > 0 && n as real * lo <= total <= n as real * hi
    ensures lo <= total / n as real <= hi
  {
    var q := total / n as real;
    assert q * n as real == total;
  }

  /** The mean of values in [lo, hi] is in [lo, hi]. */
  lemma MeanBounds(m: Scores, lo: real, hi: real)
    requires |m| > 0
    requires forall k :: k in m ==> lo <= m[k] <= hi
    ensures lo <= Mean(m) <= hi
  {
    SumBounds(m.Keys, ValueOf(m), lo, hi);
    AverageBounds(Total(m), |m|, lo, hi);
  }

  /** The variance is never negative. */
  lemma VarianceNonNegative(m: Scores)
    requires |m| > 0
    ensures Variance(m) >= 0.0
  {
    var f := SquaredDeviationOf(m, Mean(m));
    forall k | k in m.Keys ensures 0.0 <= f(k) {
      var d := At(m, k) - Mean(m);
      assert f(k) == d * d;
    }
    SumNonNegative(m.Keys, f);
  }
}
