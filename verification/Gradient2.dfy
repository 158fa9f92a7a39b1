/** The Gradient2 control loop (src/gradient2_limit.cc): one update per closed window, and what
    every run of updates keeps. Doubles are reals. */
module Gradient2 {
  import opened RealMath
  import opened ExpAvg

  /** The long-term average is a plain mean for its first ten samples. */
  const WARMUP: nat := 10

  datatype Config = Config(minLimit: int, maxLimit: int, probe: int -> int,
                           smoothing: real, tolerance: real, longWindow: nat)

  /** The ranges the builder documents but does not check. */
  ghost predicate Sound(c: Config) {
    && 0 <= c.minLimit <= c.maxLimit
    && (forall n :: 0 <= c.probe(n))
    && 0.0 < c.smoothing <= 1.0
    && 1.0 <= c.tolerance
    && 1 <= c.longWindow
  }

  datatype Model = Model(estimate: real, longRtt: Average)

  datatype Sample = Sample(rtt: int, inflight: int)

  /** A conversion from double to int: towards zero. */
  function Truncate(x: real): int { if 0.0 <= x then x.Floor else -((-x).Floor) }

  function Gradient(tolerance: real, longRtt: real, shortRtt: real): real
    requires 0.0 < shortRtt
  {
    Max(0.5, Min(1.0, tolerance * longRtt / shortRtt))
  }

  /** The long-term average an update compares the window against. */
  function Smoothed(c: Config, m: Model, rtt: int): Average
    requires 1 <= c.longWindow
  {
    Added(m.longRtt, c.longWindow, WARMUP, rtt as real)
  }

  /** Drift correction: a long-term RTT above twice the window's loses five percent. */
  function Corrected(a: Average, shortRtt: real): Average
    requires 0.0 < shortRtt
  {
    if a.value / shortRtt > 2.0 then a.(value := a.value * 0.95) else a
  }

  predicate AppLimited(m: Model, s: Sample) { s.inflight as real < m.estimate / 2.0 }

  /** The cap scaled by the gradient, probed, and smoothed against the current cap. */
  function Blend(estimate: real, gradient: real, probe: real, smoothing: real): real {
    estimate * (1.0 - smoothing) + (estimate * gradient + probe) * smoothing
  }

  function Moved(c: Config, estimate: real, gradient: real): real {
    Clamp(c.minLimit as real, c.maxLimit as real,
          Blend(estimate, gradient, c.probe(Truncate(estimate)) as real, c.smoothing))
  }

  /** The lowest cap one update can shed to. */
  function ShedFloor(estimate: real, smoothing: real): real { estimate * (1.0 - smoothing / 2.0) }

  function Updated(c: Config, m: Model, s: Sample): Model
    requires 1 <= c.longWindow
  {
    if s.rtt <= 0 then m else
      var shortRtt := s.rtt as real;
      var average := Smoothed(c, m, s.rtt);
      var corrected := Corrected(average, shortRtt);
      if AppLimited(m, s) then Model(m.estimate, corrected)
      else Model(Moved(c, m.estimate, Gradient(c.tolerance, average.value, shortRtt)), corrected)
  }

  function Run(c: Config, m: Model, samples: seq<Sample>): Model
    requires 1 <= c.longWindow
    decreases |samples|
  {
    if samples == [] then m else Run(c, Updated(c, m, samples[0]), samples[1..])
  }

  function Initial(limit: int): Model { Model(limit as real, EMPTY) }

  ghost predicate InRange(c: Config, m: Model) {
    c.minLimit as real <= m.estimate <= c.maxLimit as real
  }

  class Gradient2Limit {
    var estimatedLimit: real
    const longRtt: ExpAvgMeasurement
    const config: Config

    ghost predicate Valid() {
      && longRtt.Valid()
      && longRtt.window == config.longWindow && longRtt.warmupWindow == WARMUP
    }

    function View(): Model
      reads this, longRtt
    {
      Model(estimatedLimit, longRtt.View())
    }

    constructor (config: Config, initialLimit: int)
      requires 1 <= config.longWindow
      ensures Valid() && fresh(longRtt)
      ensures this.config == config && View() == Initial(initialLimit)
    {
      this.config := config;
      estimatedLimit := initialLimit as real;
      longRtt := new ExpAvgMeasurement(config.longWindow, WARMUP);
    }

    method Update(rtt: int, inflight: int) returns (cap: int)
      requires Valid()
      modifies this, longRtt
      ensures Valid()
      ensures View() == Updated(config, old(View()), Sample(rtt, inflight))
      ensures cap == Truncate(estimatedLimit)
    {
      hide Moved, Gradient, Added;
      if rtt <= 0 {
        return Truncate(estimatedLimit);
      }
      var shortRtt := rtt as real;
      var long := longRtt.Add(shortRtt);
      if long / shortRtt > 2.0 {
        longRtt.Update(v => v * 0.95);
      }
      if inflight as real < estimatedLimit / 2.0 {
        return Truncate(estimatedLimit);
      }
      estimatedLimit := NextEstimate(long, shortRtt);
      cap := Truncate(estimatedLimit);
    }

    /** The arithmetic tail of `Update`. */
    method NextEstimate(long: real, shortRtt: real) returns (newLimit: real)
      requires 0.0 < shortRtt
      ensures newLimit == Moved(config, estimatedLimit, Gradient(config.tolerance, long, shortRtt))
    {
      var queueSize := config.probe(Truncate(estimatedLimit)) as real;
      hide Gradient;
      var gradient := Gradient(config.tolerance, long, shortRtt);
      newLimit := estimatedLimit * gradient + queueSize;
      newLimit := estimatedLimit * (1.0 - config.smoothing) + newLimit * config.smoothing;
      newLimit := Max(config.minLimit as real, Min(config.maxLimit as real, newLimit));
    }
  }

  // ---------- One update ----------

  /** Before clamping, a cap moved by gradient g lies between the shedding bound and the probe. */
  lemma BlendBounds(estimate: real, g: real, probe: real, s: real)
    requires 0.0 <= estimate && 0.5 <= g <= 1.0 && 0.0 <= probe && 0.0 < s <= 1.0
    ensures ShedFloor(estimate, s) <= Blend(estimate, g, probe, s) <= estimate + s * probe
    ensures g == 1.0 ==> Blend(estimate, g, probe, s) == estimate + s * probe
    ensures ShedFloor(estimate, s) <= estimate
  {
    MulNonNeg(estimate, s);
    MulNonNeg(estimate * s, g - 0.5);
    MulNonNeg(estimate * s, 1.0 - g);
    MulNonNeg(probe, s);
    var blend := Blend(estimate, g, probe, s);
    assert blend == estimate * (1.0 - s / 2.0) + (estimate * s) * (g - 0.5) + probe * s;
    assert blend == estimate + s * probe - (estimate * s) * (1.0 - g);
    assert ShedFloor(estimate, s) == estimate - (estimate * s) * 0.5;
  }

  /** A window moves the cap by the smoothing weight times what the probe adds less what the gradient
      takes. */
  lemma BlendMoves(estimate: real, g: real, probe: real, s: real)
    ensures Blend(estimate, g, probe, s) == estimate + s * (probe - estimate * (1.0 - g))
  {
  }

  /** The smoothed probe: the most one update can add. */
  function Rise(c: Config, estimate: real): real { c.smoothing * c.probe(Truncate(estimate)) as real }

  /** The clamp keeps the range and cannot undo either bound of the blend. */
  lemma MovedBounds(c: Config, estimate: real, g: real)
    requires Sound(c) && c.minLimit as real <= estimate <= c.maxLimit as real && 0.5 <= g <= 1.0
    ensures c.minLimit as real <= Moved(c, estimate, g) <= c.maxLimit as real
    ensures ShedFloor(estimate, c.smoothing) <= estimate
    ensures ShedFloor(estimate, c.smoothing) <= Moved(c, estimate, g) <= estimate + Rise(c, estimate)
    ensures 0.0 <= Rise(c, estimate)
    ensures g == 1.0 ==> Moved(c, estimate, g) == Min(c.maxLimit as real, estimate + Rise(c, estimate))
  {
    hide Blend, ShedFloor;
    var p := c.probe(Truncate(estimate)) as real;
    BlendBounds(estimate, g, p, c.smoothing);
    MulNonNeg(c.smoothing, p);
  }

  /** No single update leaves the configured range, sheds more than half the smoothing weight, or
      climbs faster than the smoothed probe. */
  lemma UpdateBounds(c: Config, m: Model, s: Sample)
    requires Sound(c) && InRange(c, m)
    ensures InRange(c, Updated(c, m, s))
    ensures ShedFloor(m.estimate, c.smoothing) <= Updated(c, m, s).estimate <= m.estimate + Rise(c, m.estimate)
  {
    hide Moved, Gradient, Added, Corrected, ShedFloor, Rise;
    if 0 < s.rtt && !AppLimited(m, s) {
      var average := Smoothed(c, m, s.rtt).value;
      GradientRange(c.tolerance, average, s.rtt as real);
      MovedBounds(c, m.estimate, Gradient(c.tolerance, average, s.rtt as real));
    } else {
      MovedBounds(c, m.estimate, 1.0);
    }
  }

  /** A window within tolerance of the long-term RTT never lowers the cap: it adds the smoothed
      probe, up to the ceiling. */
  lemma NoSheddingWithoutQueuing(c: Config, m: Model, s: Sample)
    requires Sound(c) && InRange(c, m)
    requires s.rtt as real <= c.tolerance * Smoothed(c, m, s.rtt).value
    ensures m.estimate <= Updated(c, m, s).estimate
    ensures 0 < s.rtt && m.estimate <= 2.0 * s.inflight as real ==>
      Updated(c, m, s).estimate == Min(c.maxLimit as real, m.estimate + Rise(c, m.estimate))
  {
    hide Moved, Gradient, Added, Corrected, ShedFloor, Rise;
    if 0 < s.rtt && !AppLimited(m, s) {
      GradientIsOne(c.tolerance, Smoothed(c, m, s.rtt).value, s.rtt as real);
      MovedBounds(c, m.estimate, 1.0);
    }
  }

  /** A window with no measured latency leaves everything as it is; one with demand for less than half
      the cap leaves the cap, though its latency still enters the long-term RTT. */
  lemma UnusedWindowKeepsTheCap(c: Config, m: Model, s: Sample)
    requires 1 <= c.longWindow
    ensures s.rtt <= 0 ==> Updated(c, m, s) == m
    ensures 2.0 * s.inflight as real < m.estimate ==> Updated(c, m, s).estimate == m.estimate
    ensures 0 < s.rtt ==> Updated(c, m, s).longRtt == Corrected(Smoothed(c, m, s.rtt), s.rtt as real)
  {
    hide Moved, Gradient, Smoothed, Corrected;
  }

  /** Demand for at least half the cap. */
  predicate HalfUsed(m: Model, s: Sample) { m.estimate <= 2.0 * s.inflight as real }

  /** In between its bounds the gradient is tolerance times long over short latency. */
  lemma GradientIsQuotient(tolerance: real, longRtt: real, shortRtt: real)
    requires 0.0 < shortRtt && tolerance * longRtt <= shortRtt <= 2.0 * (tolerance * longRtt)
    ensures Gradient(tolerance, longRtt, shortRtt) * shortRtt == tolerance * longRtt
  {
    var x := tolerance * longRtt;
    var q := x / shortRtt;
    assert q * shortRtt == x;
    MulCancel(shortRtt, q, 1.0);
    MulCancel(shortRtt, 0.5, q);
    assert Gradient(tolerance, longRtt, shortRtt) == q;
  }

  /** Beyond twice that, it is one half. */
  lemma GradientIsHalf(tolerance: real, longRtt: real, shortRtt: real)
    requires 0.0 < shortRtt && 2.0 * (tolerance * longRtt) <= shortRtt
    ensures Gradient(tolerance, longRtt, shortRtt) == 0.5
  {
    var x := tolerance * longRtt;
    var q := x / shortRtt;
    assert q * shortRtt == x;
    MulCancel(shortRtt, q, 0.5);
    assert Gradient(tolerance, longRtt, shortRtt) == Max(0.5, Min(1.0, q));
  }

  /** A conversion to an integer drops the fraction. */
  lemma TruncateDropsFraction(x: real)
    ensures 0.0 <= x ==> Truncate(x) as real <= x < Truncate(x) as real + 1.0
    ensures x <= 0.0 ==> x <= Truncate(x) as real < x + 1.0
  {
  }

  lemma GradientRange(tolerance: real, longRtt: real, shortRtt: real)
    requires 0.0 < shortRtt
    ensures 0.5 <= Gradient(tolerance, longRtt, shortRtt) <= 1.0
  {
  }

  lemma GradientIsOne(tolerance: real, longRtt: real, shortRtt: real)
    requires 0.0 < shortRtt <= tolerance * longRtt
    ensures Gradient(tolerance, longRtt, shortRtt) == 1.0
  {
    var q := tolerance * longRtt / shortRtt;
    assert shortRtt * q == tolerance * longRtt;
    MulCancel(shortRtt, 1.0, q);
  }

  // ---------- Whole runs ----------

  /** The cap stays in its range and k updates of any kind shed at most k halved smoothing steps. */
  lemma {:induction false} SheddingVelocity(c: Config, m: Model, samples: seq<Sample>)
    requires Sound(c) && InRange(c, m)
    ensures InRange(c, Run(c, m, samples))
    ensures m.estimate * Pow(1.0 - c.smoothing / 2.0, |samples|) <= Run(c, m, samples).estimate
    decreases |samples|
  {
    hide Updated, ShedFloor, Rise;
    if samples != [] {
      var k := 1.0 - c.smoothing / 2.0;
      var next := Updated(c, m, samples[0]);
      UpdateBounds(c, m, samples[0]);
      SheddingVelocity(c, next, samples[1..]);
      PowNonNeg(k, |samples| - 1);
      ShedChain(m.estimate, c.smoothing, k, Pow(k, |samples| - 1), next.estimate, Run(c, m, samples).estimate);
    }
  }

  lemma ShedChain(x: real, s: real, k: real, p: real, next: real, last: real)
    requires k == 1.0 - s / 2.0 && 0.0 <= p
    requires ShedFloor(x, s) <= next && next * p <= last
    ensures x * (k * p) <= last
  {
    assert ShedFloor(x, s) == x * k;
    MulMono(p, x * k, next);
    Regroup(x, k, p);
  }

  lemma Regroup(x: real, k: real, p: real)
    ensures p * (x * k) == x * (k * p)
  {
  }

  lemma {:induction false} PowNonNeg(b: real, n: nat)
    requires 0.0 <= b
    ensures 0.0 <= Pow(b, n)
  {
    if 0 < n {
      PowNonNeg(b, n - 1);
      MulNonNeg(b, Pow(b, n - 1));
    }
  }

  /** One update keeps the long-term RTT between the least and the greatest sample: the drift
      correction fires only above twice the current sample, so it stays above that sample. */
  lemma UpdateStaysWithin(c: Config, m: Model, s: Sample, lo: real, hi: real)
    requires 1 <= c.longWindow
    requires Within(m.longRtt, lo, hi)
    requires 0.0 < lo && (0 < s.rtt ==> lo <= s.rtt as real <= hi)
    ensures Within(Updated(c, m, s).longRtt, lo, hi)
    ensures 0 < s.rtt ==> 0 < Updated(c, m, s).longRtt.count
  {
    hide Within, Added, Corrected, Moved, Gradient;
    if 0 < s.rtt {
      var r := s.rtt as real;
      AddStaysWithin(m.longRtt, c.longWindow, WARMUP, r, lo, hi);
      CorrectedStaysWithin(Smoothed(c, m, s.rtt), r, lo, hi);
    }
  }

  lemma CorrectedStaysWithin(a: Average, shortRtt: real, lo: real, hi: real)
    requires 0.0 < shortRtt && lo <= shortRtt <= hi && 0 < a.count && Within(a, lo, hi)
    ensures Within(Corrected(a, shortRtt), lo, hi) && Corrected(a, shortRtt).count == a.count
  {
    hide Corrected;
    CorrectionBounds(a, shortRtt);
  }

  /** "More than twice", as the code divides. */
  lemma HalfRule(x: real, r: real)
    requires 0.0 < r
    ensures x / r > 2.0 <==> x > 2.0 * r
  {
    var q := x / r;
    assert q * r == x;
    if q > 2.0 { ScaleUp(r, q - 2.0); } else { MulMono(r, q, 2.0); }
  }

  lemma ScaleUp(x: real, y: real)
    requires 0.0 < x && 0.0 < y
    ensures 0.0 < x * y && x * y == y * x
  {
  }

  /** The correction takes five percent off exactly when the average is more than twice the window's
      latency. */
  lemma CorrectionIff(a: Average, shortRtt: real)
    requires 0.0 < shortRtt
    ensures Corrected(a, shortRtt) == if a.value > 2.0 * shortRtt then a.(value := 0.95 * a.value) else a
  {
    HalfRule(a.value, shortRtt);
  }

  /** A correction lowers the average but not below the current sample. */
  lemma CorrectionBounds(a: Average, shortRtt: real)
    requires 0.0 < shortRtt
    ensures Corrected(a, shortRtt) == a ||
      (shortRtt < Corrected(a, shortRtt).value < a.value
       && Corrected(a, shortRtt) == a.(value := Corrected(a, shortRtt).value))
  {
    var q := a.value / shortRtt;
    assert q * shortRtt == a.value;
    if q > 2.0 {
      MulMono(shortRtt, 2.0, q);
    }
  }

  /** From construction on, whatever the history of positive samples, the long-term RTT lies
      between the least and the greatest of them. Non-positive samples leave no trace. */
  lemma {:induction false} LongRttHull(c: Config, m: Model, samples: seq<Sample>, lo: real, hi: real)
    requires 1 <= c.longWindow && 0.0 < lo
    requires Within(m.longRtt, lo, hi)
    requires forall s :: s in samples && 0 < s.rtt ==> lo <= s.rtt as real <= hi
    ensures Within(Run(c, m, samples).longRtt, lo, hi)
    decreases |samples|
  {
    if samples != [] {
      UpdateStaysWithin(c, m, samples[0], lo, hi);
      LongRttHull(c, Updated(c, m, samples[0]), samples[1..], lo, hi);
    }
  }
}
