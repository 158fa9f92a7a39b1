/** How fast the Gradient2 loop recovers: explicit window counts after which the long-term RTT
    has caught up with the traffic and the cap has climbed back to its ceiling. */
module Gradient2Recovery {
  import opened RealMath
  import opened ExpAvg
  import opened Gradient2

  /** The long-term average is past its warm-up mean and holds a measured latency. */
  ghost predicate Warm(m: Model) { WARMUP <= m.longRtt.count && 0.0 < m.longRtt.value }

  ghost predicate ConstantRtt(samples: seq<Sample>, r: int) {
    0 < r && forall s :: s in samples ==> s.rtt == r
  }

  lemma {:induction false} RunSplits(c: Config, m: Model, a: seq<Sample>, b: seq<Sample>)
    requires 1 <= c.longWindow
    ensures Run(c, m, a + b) == Run(c, Run(c, m, a), b)
    decreases |a|
  {
    hide Updated;
    if a == [] {
      assert a + b == b;
    } else {
      assert (a + b)[1..] == a[1..] + b;
      RunSplits(c, Updated(c, m, a[0]), a[1..], b);
    }
  }

  // ---------- The long-term RTT under constant latency ----------

  /** One warm update under latency r: an excess over r shrinks at least by the weight of the new
      sample and never changes sign; a deficit shrinks exactly by that weight. */
  lemma DeviationStep(c: Config, m: Model, s: Sample)
    requires 1 <= c.longWindow && Warm(m) && 0 < s.rtt
    ensures var r, f := s.rtt as real, SteadyStateFactor(c.longWindow);
      var before, after := m.longRtt.value - r, Updated(c, m, s).longRtt.value - r;
      && Warm(Updated(c, m, s))
      && (0.0 <= before ==> 0.0 <= after <= before * (1.0 - f))
      && (before < 0.0 ==> after == before * (1.0 - f) && after <= 0.0)
      && Smoothed(c, m, s.rtt).value - r == before * (1.0 - f)
  {
    hide Moved, Gradient;
    var r, f := s.rtt as real, SteadyStateFactor(c.longWindow);
    var v := m.longRtt.value;
    FactorIsWeight(c.longWindow);
    var average := Smoothed(c, m, s.rtt);
    assert average.value - r == (v - r) * (1.0 - f);
    CorrectionBounds(average, r);
    if 0.0 <= v - r {
      MulNonNeg(v - r, 1.0 - f);
    } else {
      MulNonNeg(r - v, 1.0 - f);
      assert (r - v) * (1.0 - f) == -((v - r) * (1.0 - f));
      NoCorrectionBelow(average, r);
      MulNonNeg(v, 1.0 - f);
      assert v * (1.0 - f) == average.value - r * f;
      PositiveProduct(r, f);
    }
  }

  lemma PositiveProduct(x: real, y: real)
    requires 0.0 < x && 0.0 < y
    ensures 0.0 < x * y
  {
  }

  lemma NoCorrectionBelow(a: Average, shortRtt: real)
    requires 0.0 < shortRtt && a.value <= shortRtt
    ensures Corrected(a, shortRtt) == a
  {
    var q := a.value / shortRtt;
    assert shortRtt * q == a.value;
    MulCancel(shortRtt, q, 1.0);
  }

  /** What Bernoulli's inequality makes of x after n steps of weight f. */
  function Magnified(x: real, n: nat, f: real): real { x * (1.0 + n as real * f) }

  /** Once at or above a constant latency the long-term RTT never falls below it, and after n
      windows its excess is at most the initial one divided by 1 + 2n/(w+1). */
  lemma {:induction false} ExcessDecays(c: Config, m: Model, samples: seq<Sample>, r: int, k: nat, excess: real)
    requires 1 <= c.longWindow && Warm(m) && ConstantRtt(samples, r)
    requires r as real <= m.longRtt.value
    requires Magnified(m.longRtt.value - r as real, k, SteadyStateFactor(c.longWindow)) <= excess
    ensures r as real <= Run(c, m, samples).longRtt.value
    ensures Magnified(Run(c, m, samples).longRtt.value - r as real, k + |samples|, SteadyStateFactor(c.longWindow))
         <= excess
    decreases |samples|
  {
    hide Updated, Smoothed, SteadyStateFactor, Magnified;
    if samples != [] {
      var next := Updated(c, m, samples[0]);
      ExcessStep(c, m, samples[0], k);
      ExcessDecays(c, next, samples[1..], r, k + 1, excess);
    }
  }

  lemma ExcessStep(c: Config, m: Model, s: Sample, k: nat)
    requires 1 <= c.longWindow && Warm(m) && 0 < s.rtt && s.rtt as real <= m.longRtt.value
    ensures var v, v', f := m.longRtt.value, Updated(c, m, s).longRtt.value, SteadyStateFactor(c.longWindow);
      && Warm(Updated(c, m, s)) && s.rtt as real <= v'
      && Magnified(v' - s.rtt as real, k + 1, f) <= Magnified(v - s.rtt as real, k, f)
  {
    hide Updated, Smoothed, SteadyStateFactor, Magnified;
    DeviationStep(c, m, s);
    FactorIsWeight(c.longWindow);
    ShrinkStep(m.longRtt.value - s.rtt as real, Updated(c, m, s).longRtt.value - s.rtt as real,
               SteadyStateFactor(c.longWindow), k);
  }

  /** A non-negative quantity that shrinks by 1 - f loses its Bernoulli share. */
  lemma ShrinkStep(x: real, y: real, f: real, k: nat)
    requires 0.0 < f <= 1.0 && 0.0 <= x && y <= x * (1.0 - f)
    ensures Magnified(y, k + 1, f) <= Magnified(x, k, f)
  {
    var m := k as real;
    var d, e := 1.0 + m * f, 1.0 + (m + 1.0) * f;
    DecayStep(f, m);
    MulNonNeg(m, f);
    assert e == d + f;
    MulMono(e, y, x * (1.0 - f));
    MulMono(x, (1.0 - f) * e, d);
    assert e * (x * (1.0 - f)) == x * ((1.0 - f) * e);
    assert (k + 1) as real == m + 1.0;
  }

  /** Below a constant latency the deficit vanishes at the same rate. */
  lemma {:induction false} DeficitDecays(c: Config, m: Model, samples: seq<Sample>, r: int, k: nat, deficit: real)
    requires 1 <= c.longWindow && Warm(m) && ConstantRtt(samples, r)
    requires m.longRtt.value <= r as real
    requires Magnified(r as real - m.longRtt.value, k, SteadyStateFactor(c.longWindow)) <= deficit
    ensures Run(c, m, samples).longRtt.value <= r as real
    ensures Magnified(r as real - Run(c, m, samples).longRtt.value, k + |samples|, SteadyStateFactor(c.longWindow))
         <= deficit
    decreases |samples|
  {
    hide Updated, Smoothed, SteadyStateFactor, Magnified;
    if samples != [] {
      var next := Updated(c, m, samples[0]);
      DeficitStep(c, m, samples[0], k);
      DeficitDecays(c, next, samples[1..], r, k + 1, deficit);
    }
  }

  lemma DeficitStep(c: Config, m: Model, s: Sample, k: nat)
    requires 1 <= c.longWindow && Warm(m) && 0 < s.rtt && m.longRtt.value <= s.rtt as real
    ensures var v, v', f := m.longRtt.value, Updated(c, m, s).longRtt.value, SteadyStateFactor(c.longWindow);
      && Warm(Updated(c, m, s)) && v' <= s.rtt as real
      && Magnified(s.rtt as real - v', k + 1, f) <= Magnified(s.rtt as real - v, k, f)
  {
    hide Updated, Smoothed, SteadyStateFactor, Magnified;
    var r, f := s.rtt as real, SteadyStateFactor(c.longWindow);
    var x, y := r - m.longRtt.value, r - Updated(c, m, s).longRtt.value;
    DeviationStep(c, m, s);
    FactorIsWeight(c.longWindow);
    NegatedProduct(m.longRtt.value - r, 1.0 - f);
    assert y <= x * (1.0 - f);
    ShrinkStep(x, y, f, k);
  }

  lemma NegatedProduct(x: real, y: real)
    ensures (-x) * y == -(x * y)
    ensures x == 0.0 ==> x * y == 0.0
  {
  }

  lemma MagnifiedFromZero(x: real, f: real)
    ensures Magnified(x, 0, f) == x
  {
  }

  /** RecoversFromAmnesia with an explicit window count: however high a spike left the long-term
      RTT, under constant latency it is back within five percent after n windows. */
  lemma AmnesiaEnds(c: Config, m: Model, samples: seq<Sample>, r: int)
    requires 1 <= c.longWindow && Warm(m) && ConstantRtt(samples, r)
    requires (m.longRtt.value - r as real) * 20.0
      <= Magnified(r as real, |samples|, SteadyStateFactor(c.longWindow))
    ensures Run(c, m, samples).longRtt.value <= r as real * 1.05
  {
    hide Updated, SteadyStateFactor, Magnified;
    var f, n := SteadyStateFactor(c.longWindow), |samples|;
    var v, v' := m.longRtt.value, Run(c, m, samples).longRtt.value;
    FactorIsWeight(c.longWindow);
    if v < r as real {
      MagnifiedFromZero(r as real - v, f);
      DeficitDecays(c, m, samples, r, 0, r as real - v);
    } else {
      MagnifiedFromZero(v - r as real, f);
      ExcessDecays(c, m, samples, r, 0, v - r as real);
      WithinFivePercent(v - r as real, v' - r as real, r as real, n, f);
    }
  }

  lemma WithinFivePercent(before: real, after: real, r: real, n: nat, f: real)
    requires 0.0 <= f && Magnified(after, n, f) <= before && before * 20.0 <= Magnified(r, n, f)
    ensures after * 20.0 <= r
  {
    MulNonNeg(n as real, f);
    var d := 1.0 + n as real * f;
    assert d * (after * 20.0) == 20.0 * (after * d);
    MulCancel(d, after * 20.0, r);
  }

  // ---------- Drift correction ----------

  /** One window of latency r while the long-term RTT is at least r: either the correction takes five
      percent off, or the value is at most 2r. */
  lemma DriftStep(c: Config, m: Model, s: Sample)
    requires 1 <= c.longWindow && Warm(m) && 0 < s.rtt && s.rtt as real <= m.longRtt.value
    ensures Warm(Updated(c, m, s)) && s.rtt as real <= Updated(c, m, s).longRtt.value
    ensures Updated(c, m, s).longRtt.value <= Max(2.0 * s.rtt as real, 0.95 * m.longRtt.value)
  {
    hide SteadyStateFactor, Added;
    var r, v := s.rtt as real, m.longRtt.value;
    DeviationStep(c, m, s);
    FactorIsWeight(c.longWindow);
    MulNonNeg(v - r, SteadyStateFactor(c.longWindow));
    var average := Smoothed(c, m, s.rtt).value;
    assert average <= v;
    HalfRule(average, r);
  }

  /** The drift phase: above twice a constant latency the correction takes five percent off per
      window, so that after k windows the long-term RTT is at most 0.95^k of what it was, or at most
      twice the latency. */
  lemma {:induction false} DriftPhase(c: Config, m: Model, samples: seq<Sample>, r: int)
    requires 1 <= c.longWindow && Warm(m) && ConstantRtt(samples, r) && r as real <= m.longRtt.value
    ensures r as real <= Run(c, m, samples).longRtt.value
    ensures Run(c, m, samples).longRtt.value <= Max(2.0 * r as real, Scaled(m.longRtt.value, 0.95, |samples|))
    ensures Warm(Run(c, m, samples))
    decreases |samples|
  {
    hide Updated, Scaled;
    if samples == [] {
      ScaledOnce(m.longRtt.value, 0.95, 0);
    } else {
      var next := Updated(c, m, samples[0]);
      DriftStep(c, m, samples[0]);
      DriftPhase(c, next, samples[1..], r);
      ScaledMono(next.longRtt.value, Max(2.0 * r as real, 0.95 * m.longRtt.value), 0.95, |samples| - 1);
      ScaledShrinks(2.0 * r as real, 0.95, |samples| - 1);
      ScaledOnce(m.longRtt.value, 0.95, |samples| - 1);
    }
  }

  /** x after n steps that each multiply by b. */
  function Scaled(x: real, b: real, n: nat): real { x * Pow(b, n) }

  lemma ScaledOnce(x: real, b: real, n: nat)
    ensures Scaled(x, b, 0) == x
    ensures Scaled(x, b, n + 1) == Scaled(b * x, b, n)
  {
    assert x * (b * Pow(b, n)) == b * x * Pow(b, n);
  }

  lemma ScaledMono(x: real, y: real, b: real, n: nat)
    requires x <= y && 0.0 <= b
    ensures Scaled(x, b, n) <= Scaled(y, b, n)
  {
    PowNonNeg(b, n);
    MulMono(Pow(b, n), x, y);
  }

  lemma {:induction false} ScaledShrinks(x: real, b: real, n: nat)
    requires 0.0 <= x && 0.0 <= b <= 1.0
    ensures 0.0 <= Scaled(x, b, n) <= x
    decreases n
  {
    hide Scaled;
    ScaledOnce(x, b, 0);
    if 0 < n {
      ScaledOnce(x, b, n - 1);
      MulNonNeg(b, x);
      MulNonNeg(1.0 - b, x);
      ScaledShrinks(b * x, b, n - 1);
    }
  }

  /** The excess over a constant latency decays geometrically, by the weight of the new sample. */
  lemma {:induction false} ExcessDecaysGeometrically(c: Config, m: Model, samples: seq<Sample>, r: int)
    requires 1 <= c.longWindow && Warm(m) && ConstantRtt(samples, r) && r as real <= m.longRtt.value
    ensures r as real <= Run(c, m, samples).longRtt.value
    ensures Run(c, m, samples).longRtt.value - r as real
         <= Scaled(m.longRtt.value - r as real, 1.0 - SteadyStateFactor(c.longWindow), |samples|)
    decreases |samples|
  {
    hide Updated, Smoothed, Scaled, SteadyStateFactor;
    var x, b := m.longRtt.value - r as real, 1.0 - SteadyStateFactor(c.longWindow);
    if samples == [] {
      ScaledOnce(x, b, 0);
    } else {
      var next := Updated(c, m, samples[0]);
      DeviationStep(c, m, samples[0]);
      FactorIsWeight(c.longWindow);
      ExcessDecaysGeometrically(c, next, samples[1..], r);
      ScaledMono(next.longRtt.value - r as real, b * x, b, |samples| - 1);
      ScaledOnce(x, b, |samples| - 1);
    }
  }

  /** RecoversFromAmnesia by drift correction: k windows in which 0.95^k brings the spike down to twice
      the latency, and n more in which (1-f)^n brings the rest below a twentieth. Both counts are
      logarithmic, the first in the height of the spike. */
  lemma AmnesiaEndsByDrift(c: Config, m: Model, drift: seq<Sample>, rest: seq<Sample>, r: int)
    requires 1 <= c.longWindow && Warm(m) && ConstantRtt(drift, r) && ConstantRtt(rest, r)
    requires r as real <= m.longRtt.value
    requires Scaled(m.longRtt.value, 0.95, |drift|) <= 2.0 * r as real
    requires Scaled(r as real, 1.0 - SteadyStateFactor(c.longWindow), |rest|) <= 0.05 * r as real
    ensures r as real <= Run(c, m, drift + rest).longRtt.value <= 1.05 * r as real
  {
    hide Updated, Scaled, SteadyStateFactor;
    var middle, b := Run(c, m, drift), 1.0 - SteadyStateFactor(c.longWindow);
    RunSplits(c, m, drift, rest);
    DriftPhase(c, m, drift, r);
    ExcessDecaysGeometrically(c, middle, rest, r);
    FactorIsWeight(c.longWindow);
    ScaledMono(middle.longRtt.value - r as real, r as real, b, |rest|);
  }

  // ---------- The gradient returns to one ----------

  /** The long-term RTT is high enough for windows of latency r to count as within tolerance. */
  ghost predicate CaughtUp(c: Config, m: Model, r: int) { r as real <= c.tolerance * m.longRtt.value }

  /** Windows of constant latency after which a warm loop has caught up with it. */
  function CatchUpWindows(c: Config): int
    requires 1.0 < c.tolerance
  {
    Ceil((c.longWindow + 1) as real / (2.0 * (c.tolerance - 1.0)))
  }

  lemma CatchUpWeight(c: Config, n: nat)
    requires 1 <= c.longWindow && 1.0 < c.tolerance && CatchUpWindows(c) <= n
    ensures 1.0 <= (c.tolerance - 1.0) * (n as real * SteadyStateFactor(c.longWindow))
  {
    var w, t, f := (c.longWindow + 1) as real, c.tolerance - 1.0, SteadyStateFactor(c.longWindow);
    FactorIsWeight(c.longWindow);
    var q := w / (2.0 * t);
    assert q * (2.0 * t) == w;
    MulMono(2.0 * t, q, n as real);
    assert w <= 2.0 * t * n as real;
    MulMono(f, w, 2.0 * t * n as real);
    assert f * (2.0 * t * n as real) == 2.0 * (t * (n as real * f));
  }

  /** After `CatchUpWindows` windows of one latency, any warm loop has caught up with it. */
  lemma CatchesUp(c: Config, m: Model, samples: seq<Sample>, r: int)
    requires Sound(c) && 1.0 < c.tolerance && Warm(m) && ConstantRtt(samples, r)
    requires CatchUpWindows(c) <= |samples|
    ensures CaughtUp(c, Run(c, m, samples), r)
    ensures Warm(Run(c, m, samples))
  {
    hide Updated, SteadyStateFactor, CatchUpWindows, Magnified;
    var f, n := SteadyStateFactor(c.longWindow), |samples|;
    var rr, v, v' := r as real, m.longRtt.value, Run(c, m, samples).longRtt.value;
    StaysWarm(c, m, samples, r);
    if rr <= v {
      MagnifiedFromZero(v - rr, f);
      ExcessDecays(c, m, samples, r, 0, v - rr);
      AtLeastOnce(c.tolerance, v');
    } else {
      MagnifiedFromZero(rr - v, f);
      DeficitDecays(c, m, samples, r, 0, rr - v);
      CatchUpWeight(c, n);
      FactorIsWeight(c.longWindow);
      DeficitWithinTolerance(rr, v', c.tolerance, n, f);
    }
  }

  lemma AtLeastOnce(t: real, x: real)
    requires 1.0 <= t && 0.0 <= x
    ensures x <= t * x
  {
    MulMono(x, 1.0, t);
  }

  /** A deficit of at most r / (1 + nf) is within tolerance once (tolerance - 1) * nf reaches one. */
  lemma DeficitWithinTolerance(r: real, v: real, tolerance: real, n: nat, f: real)
    requires 0.0 < r && 0.0 <= f && 1.0 < tolerance
    requires Magnified(r - v, n, f) <= r && 1.0 <= (tolerance - 1.0) * (n as real * f)
    ensures r <= tolerance * v
  {
    MulNonNeg(n as real, f);
    WithinTolerance(r, v, tolerance, n as real * f);
  }

  lemma WithinTolerance(r: real, v: real, tolerance: real, g: real)
    requires 0.0 < r && 0.0 <= g && 1.0 < tolerance
    requires (r - v) * (1.0 + g) <= r && 1.0 <= (tolerance - 1.0) * g
    ensures r <= tolerance * v
  {
    var q := 1.0 + g;
    assert v * q == r * q - (r - v) * q;
    assert r * g <= v * q;
    MulMono(tolerance, r * g, v * q);
    assert tolerance * g >= q;
    MulMono(r, q, tolerance * g);
    assert r * (tolerance * g) == tolerance * (r * g);
    assert tolerance * (v * q) == q * (tolerance * v);
    assert q * r <= q * (tolerance * v);
    MulCancel(q, r, tolerance * v);
  }

  lemma {:induction false} StaysWarm(c: Config, m: Model, samples: seq<Sample>, r: int)
    requires 1 <= c.longWindow && Warm(m) && ConstantRtt(samples, r)
    ensures Warm(Run(c, m, samples))
    decreases |samples|
  {
    hide Updated, Smoothed, SteadyStateFactor;
    if samples != [] {
      DeviationStep(c, m, samples[0]);
      StaysWarm(c, Updated(c, m, samples[0]), samples[1..], r);
    }
  }

  // ---------- The cap climbs ----------

  /** Demand never falls below half the cap, so no window is skipped as app-limited. */
  ghost predicate Busy(c: Config, m: Model, samples: seq<Sample>)
    requires 1 <= c.longWindow
    decreases |samples|
  {
    samples != [] ==> HalfUsed(m, samples[0]) && Busy(c, Updated(c, m, samples[0]), samples[1..])
  }

  /** Busy, and every window within tolerance of the long-term RTT: the gradient stays at one. */
  ghost predicate Healthy(c: Config, m: Model, samples: seq<Sample>)
    requires 1 <= c.longWindow
    decreases |samples|
  {
    samples != [] ==>
      && HalfUsed(m, samples[0])
      && 0 < samples[0].rtt
      && samples[0].rtt as real <= c.tolerance * Smoothed(c, m, samples[0].rtt).value
      && Healthy(c, Updated(c, m, samples[0]), samples[1..])
  }

  lemma {:induction false} HealthySplits(c: Config, m: Model, a: seq<Sample>, b: seq<Sample>)
    requires 1 <= c.longWindow
    ensures Healthy(c, m, a + b) <==> Healthy(c, m, a) && Healthy(c, Run(c, m, a), b)
    decreases |a|
  {
    hide Updated, Smoothed;
    if a == [] {
      assert a + b == b;
    } else {
      assert (a + b)[1..] == a[1..] + b;
      HealthySplits(c, Updated(c, m, a[0]), a[1..], b);
    }
  }

  lemma {:induction false} BusySplits(c: Config, m: Model, a: seq<Sample>, b: seq<Sample>)
    requires 1 <= c.longWindow
    ensures Busy(c, m, a + b) <==> Busy(c, m, a) && Busy(c, Run(c, m, a), b)
    decreases |a|
  {
    hide Updated;
    if a == [] {
      assert a + b == b;
    } else {
      assert (a + b)[1..] == a[1..] + b;
      BusySplits(c, Updated(c, m, a[0]), a[1..], b);
    }
  }

  /** Having caught up is kept: a weighted mean with r, or a corrected value above r. */
  lemma StaysCaughtUp(c: Config, m: Model, s: Sample)
    requires Sound(c) && Warm(m) && 0 < s.rtt && CaughtUp(c, m, s.rtt)
    ensures s.rtt as real <= c.tolerance * Smoothed(c, m, s.rtt).value
    ensures CaughtUp(c, Updated(c, m, s), s.rtt)
  {
    hide Moved, Gradient, SteadyStateFactor, WeightedMean;
    var r, v, f := s.rtt as real, m.longRtt.value, SteadyStateFactor(c.longWindow);
    FactorIsWeight(c.longWindow);
    CaughtUpMean(c.tolerance, v, r, f);
    var average := Smoothed(c, m, s.rtt);
    CorrectionBounds(average, r);
    if Corrected(average, r) != average {
      MulMono(Corrected(average, r).value, 1.0, c.tolerance);
    }
  }

  lemma CaughtUpMean(t: real, v: real, r: real, f: real)
    requires 0.0 < r && 1.0 <= t && 0.0 <= f <= 1.0 && r <= t * v
    ensures r <= t * WeightedMean(v, r, f)
  {
    MulMono(r, 1.0, t);
    var x, y := t * v, t * r;
    BlendBetween(x, y, f, r, Max(x, y));
    assert WeightedMean(x, y, f) == t * WeightedMean(v, r, f);
  }

  /** A warm, busy loop that has caught up with a constant latency is healthy from then on. */
  lemma {:induction false} CaughtUpIsHealthy(c: Config, m: Model, samples: seq<Sample>, r: int)
    requires Sound(c) && Warm(m) && ConstantRtt(samples, r) && CaughtUp(c, m, r) && Busy(c, m, samples)
    ensures Healthy(c, m, samples)
    decreases |samples|
  {
    hide Updated, Smoothed, SteadyStateFactor, CaughtUp;
    if samples != [] {
      StaysCaughtUp(c, m, samples[0]);
      DeviationStep(c, m, samples[0]);
      CaughtUpIsHealthy(c, Updated(c, m, samples[0]), samples[1..], r);
    }
  }

  /** n windows that each add `rise`. */
  function Gain(n: nat, rise: real): real { n as real * rise }

  lemma GainStep(n: nat, rise: real)
    requires 0.0 <= rise
    ensures Gain(n + 1, rise) == rise + Gain(n, rise)
    ensures Gain(0, rise) == 0.0 <= Gain(n, rise)
  {
    MulNonNeg(n as real, rise);
    assert (n + 1) as real * rise == n as real * rise + rise;
  }

  /** While healthy, a cap whose smoothed probe is at least `rise` everywhere above `base` gains
      `rise` per window until it meets the ceiling. */
  lemma {:induction false} Climbs(c: Config, m: Model, samples: seq<Sample>, base: real, rise: real)
    requires Sound(c) && InRange(c, m) && Healthy(c, m, samples)
    requires 0.0 <= rise && base <= m.estimate
    requires forall x | base <= x <= c.maxLimit as real :: rise <= Rise(c, x)
    ensures InRange(c, Run(c, m, samples))
    ensures Min(c.maxLimit as real, m.estimate + Gain(|samples|, rise)) <= Run(c, m, samples).estimate
    decreases |samples|
  {
    hide Updated, Smoothed, Rise, Gain, ShedFloor;
    GainStep(if samples == [] then 0 else |samples| - 1, rise);
    if samples != [] {
      ClimbStep(c, m, samples[0], base, rise);
      Climbs(c, Updated(c, m, samples[0]), samples[1..], base, rise);
    }
  }

  lemma ClimbStep(c: Config, m: Model, s: Sample, base: real, rise: real)
    requires Sound(c) && InRange(c, m) && 0.0 <= rise && base <= m.estimate
    requires HalfUsed(m, s) && 0 < s.rtt && s.rtt as real <= c.tolerance * Smoothed(c, m, s.rtt).value
    requires rise <= Rise(c, m.estimate)
    ensures InRange(c, Updated(c, m, s)) && base <= Updated(c, m, s).estimate
    ensures Min(c.maxLimit as real, m.estimate + rise) <= Updated(c, m, s).estimate
  {
    hide Updated, Smoothed, Rise, ShedFloor;
    NoSheddingWithoutQueuing(c, m, s);
    UpdateBounds(c, m, s);
  }

  /** Windows in which a probe of at least one carries the cap across its whole range. */
  function ClimbWindows(c: Config): int
    requires 0.0 < c.smoothing
  {
    Ceil((c.maxLimit - c.minLimit) as real / c.smoothing)
  }

  ghost predicate Probing(c: Config) { forall n :: 1 <= c.probe(n) }

  lemma RiseAtLeast(c: Config, x: real, probe: int)
    requires 0.0 <= c.smoothing && probe <= c.probe(Truncate(x))
    ensures c.smoothing * probe as real <= Rise(c, x)
  {
    MulMono(c.smoothing, probe as real, c.probe(Truncate(x)) as real);
  }

  lemma {:induction false} ClimbReachesCeiling(c: Config, m: Model, samples: seq<Sample>)
    requires Sound(c) && Probing(c) && InRange(c, m) && Healthy(c, m, samples)
    requires ClimbWindows(c) <= |samples|
    ensures Run(c, m, samples).estimate == c.maxLimit as real
  {
    hide Updated, Smoothed, Rise, Gain, Run, Healthy;
    forall x | c.minLimit as real <= x <= c.maxLimit as real
      ensures c.smoothing <= Rise(c, x)
    {
      RiseAtLeast(c, x, 1);
    }
    Climbs(c, m, samples, c.minLimit as real, c.smoothing);
    WindowsCover((c.maxLimit - c.minLimit) as real, c.smoothing, |samples|);
  }

  lemma WindowsCover(width: real, s: real, n: nat)
    requires 0.0 < s && Ceil(width / s) <= n
    ensures width <= Gain(n, s)
  {
    var q := width / s;
    assert s * q == width;
    MulMono(s, q, n as real);
  }

  /** RecoversAfterSpike with an explicit window count. From any warm state, once every window has
      the same latency and demand keeps the loop busy, the cap is exactly the ceiling after
      `CatchUpWindows + ClimbWindows` windows and after every later one. */
  lemma Recovers(c: Config, m: Model, samples: seq<Sample>, r: int)
    requires Sound(c) && 1.0 < c.tolerance && Probing(c)
    requires Warm(m) && InRange(c, m) && ConstantRtt(samples, r) && Busy(c, m, samples)
    requires CatchUpWindows(c) + ClimbWindows(c) <= |samples|
    ensures Run(c, m, samples).estimate == c.maxLimit as real
  {
    hide Updated, CatchUpWindows, ClimbWindows;
    var mid := CatchUpWindows(c);
    WindowCounts(c);
    ReachesHealth(c, m, samples, r, mid);
    ClimbReachesCeiling(c, Run(c, m, samples[..mid]), samples[mid..]);
  }

  lemma WindowCounts(c: Config)
    requires Sound(c) && 1.0 < c.tolerance
    ensures 0 <= CatchUpWindows(c) && 0 <= ClimbWindows(c)
  {
    var p, q := (c.longWindow + 1) as real, 2.0 * (c.tolerance - 1.0);
    var x, y := p / q, (c.maxLimit - c.minLimit) as real / c.smoothing;
    assert q * x == p;
    MulCancel(q, 0.0, x);
    assert c.smoothing * y == (c.maxLimit - c.minLimit) as real;
    MulCancel(c.smoothing, 0.0, y);
  }

  lemma StaysInRange(c: Config, m: Model, samples: seq<Sample>)
    requires Sound(c) && InRange(c, m)
    ensures InRange(c, Run(c, m, samples))
  {
    SheddingVelocity(c, m, samples);
  }

  /** Splitting a busy run of constant latency where the loop has caught up: the rest is healthy. */
  lemma ReachesHealth(c: Config, m: Model, samples: seq<Sample>, r: int, mid: nat)
    requires Sound(c) && 1.0 < c.tolerance && Warm(m) && InRange(c, m)
    requires ConstantRtt(samples, r) && Busy(c, m, samples)
    requires CatchUpWindows(c) <= mid <= |samples|
    ensures var middle := Run(c, m, samples[..mid]);
      && InRange(c, middle) && Healthy(c, middle, samples[mid..])
      && Run(c, m, samples) == Run(c, middle, samples[mid..])
  {
    hide Updated, CatchUpWindows, CaughtUp;
    var a, b := samples[..mid], samples[mid..];
    assert samples == a + b;
    RunSplits(c, m, a, b);
    BusySplits(c, m, a, b);
    StaysInRange(c, m, a);
    CatchesUp(c, m, a, r);
    CaughtUpIsHealthy(c, Run(c, m, a), b, r);
  }

  // ---------- The default square-root probe ----------

  /** The least k from `k` on whose square reaches n. */
  function RootFrom(n: int, k: nat): (root: nat)
    ensures k <= root && n <= root * root
    ensures forall j | k <= j < root :: j * j < n
    decreases n - k
  {
    if n <= k * k then k else RootFrom(n, k + 1)
  }

  /** The default probe: the rounded-up square root of the cap, at least one. */
  function DefaultSqrtQueueSize(currentLimit: int): (root: int)
    ensures 1 <= root && currentLimit <= root * root
    ensures forall j | 1 <= j < root :: j * j < currentLimit
  {
    RootFrom(currentLimit, 1)
  }

  ghost predicate DefaultProbe(c: Config) { forall n :: c.probe(n) == DefaultSqrtQueueSize(n) }

  function Square(k: int): int { k * k }

  /** From k squared up, the default probe is at least k. */
  lemma ProbeAtLeast(k: int, limit: int)
    requires 1 <= k && k * k <= limit
    ensures k <= DefaultSqrtQueueSize(limit)
  {
    var root := DefaultSqrtQueueSize(limit);
    if root < k {
      assert root * root < k * k by { SquareMono(root, k); }
    }
  }

  lemma SquareMono(x: int, y: int)
    requires 0 <= x < y
    ensures x * x < y * y
  {
    assert y * y - x * x == (y - x) * (y + x);
  }

  /** Windows in which the default probe crosses from one square to the next. */
  function BandWindows(c: Config): int
    requires 0.0 < c.smoothing
  {
    Ceil(3.0 / c.smoothing)
  }

  lemma BandCounts(c: Config, n: nat)
    requires 0.0 < c.smoothing && BandWindows(c) <= n
    ensures 3.0 <= Gain(n, c.smoothing)
    ensures 0 <= BandWindows(c)
  {
    WindowsCover(3.0, c.smoothing, n);
    BandNonNeg(c);
  }

  lemma BandRise(c: Config, k: int, x: real)
    requires Sound(c) && DefaultProbe(c) && 1 <= k && Square(k) as real <= x
    ensures BandStep(c, k) <= Rise(c, x)
  {
    assert k * k <= Truncate(x);
    ProbeAtLeast(k, Truncate(x));
    RiseAtLeast(c, x, k);
  }

  /** What the default probe adds per window, at least, from k squared on. */
  function BandStep(c: Config, k: int): real { c.smoothing * k as real }

  /** One band: from at least k squared to at least (k + 1) squared, or to the ceiling. */
  lemma CrossesBand(c: Config, m: Model, samples: seq<Sample>, k: int)
    requires Sound(c) && DefaultProbe(c) && InRange(c, m) && Healthy(c, m, samples)
    requires 1 <= k && Square(k) as real <= m.estimate
    requires BandWindows(c) <= |samples|
    ensures Min(c.maxLimit as real, Square(k + 1) as real) <= Run(c, m, samples).estimate
    ensures InRange(c, Run(c, m, samples))
  {
    hide Updated, Smoothed, BandWindows, Rise, Square, Gain, BandStep, Run, Healthy;
    forall x | Square(k) as real <= x <= c.maxLimit as real
      ensures BandStep(c, k) <= Rise(c, x)
    {
      BandRise(c, k, x);
    }
    BandCounts(c, |samples|);
    BandWidth(c, k, |samples|);
    Climbs(c, m, samples, Square(k) as real, BandStep(c, k));
  }

  lemma BandWidth(c: Config, k: int, n: nat)
    requires 1 <= k && 0.0 < c.smoothing && 3.0 <= Gain(n, c.smoothing)
    ensures 0.0 <= BandStep(c, k)
    ensures Square(k + 1) as real <= Square(k) as real + Gain(n, BandStep(c, k))
  {
    var s := c.smoothing;
    MulNonNeg(s, k as real);
    MulMono(k as real, 3.0, n as real * s);
    Regroup(n as real, s, k as real);
    assert Square(k + 1) == Square(k) + 2 * k + 1;
  }

  /** Square-root recovery: while healthy, a cap between k squared and the ceiling reaches the
      ceiling within (root - k) bands, where root is the rounded-up square root of the ceiling. */
  lemma {:induction false} SquareRootRecovery(c: Config, m: Model, samples: seq<Sample>, k: int)
    requires Sound(c) && DefaultProbe(c) && InRange(c, m) && Healthy(c, m, samples)
    requires 1 <= k <= DefaultSqrtQueueSize(c.maxLimit)
    requires Square(k) as real <= m.estimate || m.estimate == c.maxLimit as real
    requires (DefaultSqrtQueueSize(c.maxLimit) - k) * BandWindows(c) <= |samples|
    ensures Run(c, m, samples).estimate == c.maxLimit as real
    decreases DefaultSqrtQueueSize(c.maxLimit) - k
  {
    hide Updated, Smoothed, BandWindows;
    var root, band := DefaultSqrtQueueSize(c.maxLimit), BandWindows(c);
    if m.estimate == c.maxLimit as real || k == root {
      StaysAtCeiling(c, m, samples);
    } else {
      BandNonNeg(c);
      assert (root - k) * band == (root - (k + 1)) * band + band;
      ProductNonNeg(root - (k + 1), band);
      var a, b := samples[..band], samples[band..];
      assert samples == a + b;
      RunSplits(c, m, a, b);
      HealthySplits(c, m, a, b);
      CrossesBand(c, m, a, k);
      SquareRootRecovery(c, Run(c, m, a), b, k + 1);
    }
  }

  lemma ProductNonNeg(x: int, y: int)
    requires 0 <= x && 0 <= y
    ensures 0 <= x * y
  {
  }

  lemma BandNonNeg(c: Config)
    requires 0.0 < c.smoothing
    ensures 0 <= BandWindows(c)
  {
    var q := 3.0 / c.smoothing;
    assert q * c.smoothing == 3.0;
    MulCancel(c.smoothing, 0.0, q);
  }

  lemma StaysAtCeiling(c: Config, m: Model, samples: seq<Sample>)
    requires Sound(c) && InRange(c, m) && Healthy(c, m, samples) && m.estimate == c.maxLimit as real
    ensures Run(c, m, samples).estimate == c.maxLimit as real
  {
    hide Updated, Smoothed, Rise, Gain, Run, Healthy;
    forall x | c.minLimit as real <= x <= c.maxLimit as real
      ensures 0.0 <= Rise(c, x)
    {
      RiseAtLeast(c, x, 0);
    }
    GainStep(|samples|, 0.0);
    Climbs(c, m, samples, c.minLimit as real, 0.0);
  }

  /** Recovery with the default configuration's probe: constant latency and steady demand bring a
      warm loop with a floor of at least one to its ceiling in `CatchUpWindows` windows plus one
      band per integer below the square root of the ceiling. */
  lemma RecoversWithDefaultProbe(c: Config, m: Model, samples: seq<Sample>, r: int)
    requires Sound(c) && 1.0 < c.tolerance && DefaultProbe(c) && 1 <= c.minLimit
    requires Warm(m) && InRange(c, m) && ConstantRtt(samples, r) && Busy(c, m, samples)
    requires CatchUpWindows(c) + (DefaultSqrtQueueSize(c.maxLimit) - 1) * BandWindows(c) <= |samples|
    ensures Run(c, m, samples).estimate == c.maxLimit as real
  {
    hide Updated, CatchUpWindows, ClimbWindows, BandWindows;
    var mid := CatchUpWindows(c);
    WindowCounts(c);
    BandNonNeg(c);
    ProductNonNeg(DefaultSqrtQueueSize(c.maxLimit) - 1, BandWindows(c));
    ReachesHealth(c, m, samples, r, mid);
    SquareRootRecovery(c, Run(c, m, samples[..mid]), samples[mid..], 1);
  }

  // ---------- Good windows infinitely often are not enough ----------

  /** A sound configuration with tolerance one, where the cap still recovers only if windows are
      good from some point on. */
  function AlternatingConfig(): Config { Config(1, 100, _ => 1, 1.0, 1.0, 3) }

  function Alternating(rounds: nat): seq<Sample> {
    if rounds == 0 then [] else [Sample(1, 100), Sample(4, 100)] + Alternating(rounds - 1)
  }

  function Warming(r: int, n: nat): seq<Sample> { if n == 0 then [] else [Sample(r, 0)] + Warming(r, n - 1) }

  /** After k windows of latency r. */
  function WarmedBy(r: int, k: nat): Average { Average(if k == 0 then 0.0 else r as real, (r * k) as real, k) }

  /** Ten idle windows of one latency warm a new loop up and leave its cap where it was. */
  lemma {:induction false} WarmsUp(c: Config, limit: int, r: int, k: nat)
    requires 1 <= c.longWindow && 0 < limit && 0 < r && k <= 10
    ensures Run(c, Model(limit as real, WarmedBy(r, k)), Warming(r, 10 - k)) == Model(limit as real, WarmedBy(r, 10))
    decreases 10 - k
  {
    if k < 10 {
      WarmsUpStep(c, limit, r, k);
      hide Updated, WarmedBy;
      WarmsUp(c, limit, r, k + 1);
      assert Warming(r, 10 - k)[1..] == Warming(r, 10 - (k + 1));
    }
  }

  lemma WarmsUpStep(c: Config, limit: int, r: int, k: nat)
    requires 1 <= c.longWindow && 0 < limit && 0 < r && k < 10
    ensures Updated(c, Model(limit as real, WarmedBy(r, k)), Sample(r, 0)) == Model(limit as real, WarmedBy(r, k + 1))
  {
    var sum, n := (r * k) as real + r as real, (k + 1) as real;
    assert sum == (r * (k + 1)) as real && sum == n * r as real;
    var mean := sum / n;
    assert mean * n == sum;
    SameFactor(n, mean, r as real);
    NoCorrectionBelow(WarmedBy(r, k + 1), r as real);
  }

  lemma SameFactor(k: real, x: real, y: real)
    requires 0.0 < k && x * k == k * y
    ensures x == y
  {
    MulCancel(k, x, y);
    MulCancel(k, y, x);
  }

  /** The proposal's liveness hypotheses, that good windows recur forever, do not suffice: when every
      second window has the baseline latency of one and is fully used, a cap of 7 alternates between
      8 and 7 forever and never nears its ceiling of 100, and the long-term RTT alternates between
      three and two times the baseline. */
  lemma {:induction false} RecurringGoodWindowsDoNotRecover(rounds: nat)
    ensures Sound(AlternatingConfig()) && Probing(AlternatingConfig())
    ensures var c, m := AlternatingConfig(), Model(7.0, Average(3.0, 30.0, 10));
      && Warm(m) && InRange(c, m) && HalfUsed(m, Sample(1, 100))
      && 1.0 <= Smoothed(c, m, 1).value
      && Run(c, Initial(7), Warming(3, 10)) == m
      && Run(c, m, Alternating(rounds)) == m
      && Run(c, m, Alternating(rounds) + [Sample(1, 100)]) == Model(8.0, Average(2.0, 30.0, 10))
  {
    WarmsUp(AlternatingConfig(), 7, 3, 0);
    AlternatingCycle();
    AlternatingRuns(rounds);
  }

  lemma {:induction false} AlternatingRuns(rounds: nat)
    ensures var c, m := AlternatingConfig(), Model(7.0, Average(3.0, 30.0, 10));
      && Run(c, m, Alternating(rounds)) == m
      && Run(c, m, Alternating(rounds) + [Sample(1, 100)]) == Model(8.0, Average(2.0, 30.0, 10))
  {
    var c, m := AlternatingConfig(), Model(7.0, Average(3.0, 30.0, 10));
    var good, bad := Sample(1, 100), Sample(4, 100);
    AlternatingCycle();
    hide Updated, Smoothed, AlternatingConfig;
    if 0 < rounds {
      var rest := Alternating(rounds - 1);
      AlternatingRuns(rounds - 1);
      TwoWindows(c, m, good, bad);
      RunSplits(c, m, [good, bad], rest);
      RunSplits(c, m, [good, bad], rest + [good]);
      assert [good, bad] + rest + [good] == [good, bad] + (rest + [good]);
    } else {
      assert Alternating(0) + [good] == [good];
      assert Run(c, m, [good]) == Updated(c, m, good);
    }
  }

  lemma TwoWindows(c: Config, m: Model, a: Sample, b: Sample)
    requires 1 <= c.longWindow
    ensures Run(c, m, [a, b]) == Updated(c, Updated(c, m, a), b)
  {
    hide Updated;
    assert [a, b][1..] == [b] && [b][1..] == [];
    assert Run(c, Updated(c, m, a), [b]) == Updated(c, Updated(c, m, a), b);
  }

  lemma AlternatingCycle()
    ensures var c, m := AlternatingConfig(), Model(7.0, Average(3.0, 30.0, 10));
      && Updated(c, m, Sample(1, 100)) == Model(8.0, Average(2.0, 30.0, 10))
      && Updated(c, Model(8.0, Average(2.0, 30.0, 10)), Sample(4, 100)) == m
      && 1.0 <= Smoothed(c, m, 1).value
  {
  }
}
