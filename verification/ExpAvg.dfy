/** The warm-up mean followed by an exponential moving average (src/exp_avg_measurement.cc). */
module ExpAvg {
  import opened RealMath

  /** The three mutable fields of the measurement. */
  datatype Average = Average(value: real, sum: real, count: nat)

  const EMPTY := Average(0.0, 0.0, 0)

  /** The weight of a new sample once the warm-up is over. */
  function SteadyStateFactor(window: nat): real
    requires 1 <= window
  {
    2.0 / (window + 1) as real
  }

  lemma FactorIsWeight(window: nat)
    requires 1 <= window
    ensures 0.0 < SteadyStateFactor(window) <= 1.0
    ensures SteadyStateFactor(window) * (window + 1) as real == 2.0
  {
  }

  function WeightedMean(value: real, sample: real, factor: real): real {
    value * (1.0 - factor) + sample * factor
  }

  function Added(a: Average, window: nat, warmup: nat, sample: real): Average
    requires 1 <= window
  {
    if a.count < warmup then
      var sum := a.sum + sample;
      Average(sum / (a.count + 1) as real, sum, a.count + 1)
    else
      a.(value := WeightedMean(a.value, sample, SteadyStateFactor(window)))
  }

  /** Everything the average was built from lies in [lo, hi]: the warm-up sum is that of
      `count` such samples and the smoothed value has not left the interval. */
  ghost predicate Within(a: Average, lo: real, hi: real) {
    && lo * a.count as real <= a.sum <= hi * a.count as real
    && (0 < a.count ==> lo <= a.value <= hi)
  }

  lemma AddStaysWithin(a: Average, window: nat, warmup: nat, sample: real, lo: real, hi: real)
    requires 1 <= window && 1 <= warmup
    requires Within(a, lo, hi) && lo <= sample <= hi
    ensures Within(Added(a, window, warmup, sample), lo, hi)
    ensures 0 < Added(a, window, warmup, sample).count
  {
    if a.count < warmup {
      MeanBetween(a.sum, sample, a.count as real, lo, hi);
    } else {
      FactorIsWeight(window);
      BlendBetween(a.value, sample, SteadyStateFactor(window), lo, hi);
    }
  }

  /** Adding one more number from [lo, hi] keeps the mean of n numbers in the interval. */
  lemma MeanBetween(sum: real, x: real, n: real, lo: real, hi: real)
    requires 0.0 <= n && lo * n <= sum <= hi * n && lo <= x <= hi
    ensures lo * (n + 1.0) <= sum + x <= hi * (n + 1.0)
    ensures lo <= (sum + x) / (n + 1.0) <= hi
  {
    assert lo * (n + 1.0) == lo * n + lo && hi * (n + 1.0) == hi * n + hi;
    var mean := (sum + x) / (n + 1.0);
    assert (n + 1.0) * mean == sum + x;
    MulCancel(n + 1.0, lo, mean);
    MulCancel(n + 1.0, mean, hi);
  }

  /** A weighted mean of two numbers lies in every interval that holds both. */
  lemma BlendBetween(x: real, y: real, f: real, lo: real, hi: real)
    requires 0.0 <= f <= 1.0 && lo <= x <= hi && lo <= y <= hi
    ensures lo <= WeightedMean(x, y, f) <= hi
  {
    var g := 1.0 - f;
    MulNonNeg(x - lo, g);
    MulNonNeg(y - lo, f);
    assert x * g + y * f == lo + (x - lo) * g + (y - lo) * f;
    MulNonNeg(hi - x, g);
    MulNonNeg(hi - y, f);
    assert x * g + y * f == hi - (hi - x) * g - (hi - y) * f;
  }

  // ---------- What the value is ----------

  function AddedAll(window: nat, warmup: nat, samples: seq<real>): Average
    requires 1 <= window
  {
    if samples == [] then EMPTY
    else Added(AddedAll(window, warmup, samples[..|samples| - 1]), window, warmup, samples[|samples| - 1])
  }

  function SumOf(samples: seq<real>): real {
    if samples == [] then 0.0 else SumOf(samples[..|samples| - 1]) + samples[|samples| - 1]
  }

  /** Up to the end of the warm-up the value is the mean of all samples. */
  lemma {:induction false} WarmUpIsMean(window: nat, warmup: nat, samples: seq<real>)
    requires 1 <= window && |samples| <= warmup
    ensures var a := AddedAll(window, warmup, samples);
      && a.count == |samples| && a.sum == SumOf(samples)
      && a.value * |samples| as real == SumOf(samples)
  {
    if samples != [] {
      var before := samples[..|samples| - 1];
      WarmUpIsMean(window, warmup, before);
      var sum, n := SumOf(samples), |samples| as real;
      var mean := sum / n;
      assert mean * n == sum;
      assert AddedAll(window, warmup, samples) == Average(mean, sum, |samples|);
    }
  }

  /** After it, a sample moves the value by 2/(window + 1) of its distance, and nothing else changes. */
  lemma WarmValueMoves(a: Average, window: nat, warmup: nat, sample: real)
    requires 1 <= window && warmup <= a.count
    ensures var b := Added(a, window, warmup, sample);
      && (b.value - a.value) * (window + 1) as real == 2.0 * (sample - a.value)
      && b.sum == a.sum && b.count == a.count
  {
    FactorIsWeight(window);
    var f, k, d := SteadyStateFactor(window), (window + 1) as real, sample - a.value;
    var b := Added(a, window, warmup, sample);
    assert b.value - a.value == d * f;
    assert d * f * k == d * (f * k);
  }

  class ExpAvgMeasurement {
    var value: real
    var sum: real
    var count: nat
    const window: nat
    const warmupWindow: nat

    ghost predicate Valid() { 1 <= window }

    function View(): Average
      reads this
    {
      Average(value, sum, count)
    }

    constructor (window: nat, warmupWindow: nat)
      requires 1 <= window
      ensures Valid() && View() == EMPTY
      ensures this.window == window && this.warmupWindow == warmupWindow
    {
      value, sum, count := 0.0, 0.0, 0;
      this.window, this.warmupWindow := window, warmupWindow;
    }

    method Add(sample: real) returns (r: real)
      requires Valid()
      modifies this
      ensures View() == Added(old(View()), window, warmupWindow, sample)
      ensures r == value
    {
      if count < warmupWindow {
        count := count + 1;
        sum := sum + sample;
        value := sum / count as real;
      } else {
        var factor := SteadyStateFactor(window);
        value := value * (1.0 - factor) + sample * factor;
      }
      r := value;
    }

    method Reset()
      modifies this
      ensures View() == EMPTY
    {
      value, sum, count := 0.0, 0.0, 0;
    }

    method Update(operation: real -> real)
      modifies this
      ensures View() == old(View()).(value := operation(old(value)))
    {
      value := operation(value);
    }
  }
}
