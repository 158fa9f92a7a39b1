/** Infinite runs of the Gradient2 loop, and exactly when a baseline latency that recurs forever brings
    the long-term RTT back (formal_methods/gradient2_tla_proposal.md:69-77). */
module Gradient2Liveness {
  import opened RealMath
  import opened ExpAvg
  import opened Gradient2
  import opened Gradient2Recovery

  type Windows = nat -> Sample

  /** The state after the first n windows of an infinite run. */
  function At(c: Config, m: Model, run: Windows, n: nat): Model
    requires 1 <= c.longWindow
  {
    if n == 0 then m else Updated(c, At(c, m, run, n - 1), run(n - 1))
  }

  lemma AtNext(c: Config, m: Model, run: Windows, n: nat)
    requires 1 <= c.longWindow
    ensures At(c, m, run, n + 1) == Updated(c, At(c, m, run, n), run(n))
  {
  }

  lemma WarmStep(c: Config, m: Model, s: Sample)
    requires 1 <= c.longWindow && Warm(m)
    ensures Warm(Updated(c, m, s))
  {
    if 0 < s.rtt { DeviationStep(c, m, s); }
  }

  lemma {:induction false} WarmAt(c: Config, m: Model, run: Windows, n: nat)
    requires 1 <= c.longWindow && Warm(m)
    ensures Warm(At(c, m, run, n))
  {
    hide Updated, Warm;
    if 0 < n {
      WarmAt(c, m, run, n - 1);
      WarmStep(c, At(c, m, run, n - 1), run(n - 1));
    }
  }

  // ---------- The long-term RTT ----------

  ghost predicate LatencyLater(run: Windows, b: int, n: nat) { exists k: nat :: n <= k && run(k).rtt == b }

  /** Windows of latency b recur forever. */
  ghost predicate LatencyRecurs(run: Windows, b: int) { forall n: nat :: LatencyLater(run, b, n) }

  ghost predicate NearBaseline(m: Model, b: int) { m.longRtt.value <= 1.05 * b as real }

  ghost predicate GetsNear(c: Config, m: Model, run: Windows, b: int)
    requires 1 <= c.longWindow
  {
    exists n: nat :: NearBaseline(At(c, m, run, n), b)
  }

  /** From every warm state, on every run in which a latency b recurs forever, the long-term RTT comes
      within five percent of b, or below it. */
  ghost predicate RecoversFromAmnesia(c: Config)
    requires 1 <= c.longWindow
  {
    forall m: Model, run: Windows, b: int ::
      Warm(m) && 0 < b && LatencyRecurs(run, b) ==> GetsNear(c, m, run, b)
  }

  /** With a long window of one sample the long-term RTT is the latest sample. */
  lemma LatestSample(c: Config, m: Model, run: Windows, b: int)
    requires c.longWindow == 1 && Warm(m) && 0 < b && LatencyRecurs(run, b)
    ensures GetsNear(c, m, run, b)
  {
    assert LatencyLater(run, b, 0);
    var k: nat :| run(k).rtt == b;
    WarmAt(c, m, run, k);
    hide Warm;
    var before := At(c, m, run, k);
    OnlyTheSample(c, before, run(k));
    assert At(c, m, run, k + 1) == Updated(c, before, run(k));
    assert NearBaseline(At(c, m, run, k + 1), b);
  }

  lemma OnlyTheSample(c: Config, m: Model, s: Sample)
    requires c.longWindow == 1 && Warm(m) && 0 < s.rtt
    ensures Updated(c, m, s).longRtt.value == s.rtt as real
  {
    hide Updated, Smoothed;
    DeviationStep(c, m, s);
    FactorIsWeight(1);
    assert SteadyStateFactor(1) == 1.0;
  }

  /** The parts of the new average that the old one and the window's latency put in. */
  lemma SmoothedPulls(c: Config, m: Model, rtt: int)
    requires 1 <= c.longWindow && Warm(m) && 0 < rtt
    ensures Left(c, m.longRtt.value) <= Smoothed(c, m, rtt).value
    ensures Weigh(c, rtt) <= Smoothed(c, m, rtt).value
    ensures 0.0 <= Left(c, m.longRtt.value) && Weigh(c, rtt) <= rtt as real
  {
    var r, v, f := rtt as real, m.longRtt.value, SteadyStateFactor(c.longWindow);
    FactorIsWeight(c.longWindow);
    assert Smoothed(c, m, rtt).value == v * (1.0 - f) + r * f;
    MulNonNeg(r, f);
    MulNonNeg(v, 1.0 - f);
    MulMono(r, f, 1.0);
  }

  lemma CorrectedAtLeast(a: Average, r: real)
    requires 0.0 < r && 0.0 <= a.value
    ensures 0.95 * a.value <= Corrected(a, r).value && Min(a.value, r) <= Corrected(a, r).value
  {
    FivePercent(a, r);
    hide Corrected;
    CorrectionBounds(a, r);
  }

  lemma FivePercent(a: Average, r: real)
    requires 0.0 < r && 0.0 <= a.value
    ensures 0.95 * a.value <= Corrected(a, r).value
  {
    var lower := a.value * 0.95;
    assert lower <= a.value;
  }

  /** How far one window of any latency can pull the long-term RTT down, and how far up it must. */
  lemma OneWindowPulls(c: Config, m: Model, s: Sample)
    requires 1 <= c.longWindow && Warm(m) && 0 < s.rtt
    ensures Keep(c, m.longRtt.value) <= Updated(c, m, s).longRtt.value
    ensures Weigh(c, s.rtt) <= Updated(c, m, s).longRtt.value
  {
    hide Moved, Gradient, Smoothed, Corrected, Left, Weigh;
    SmoothedPulls(c, m, s.rtt);
    CorrectedAtLeast(Smoothed(c, m, s.rtt), s.rtt as real);
  }

  /** What one window leaves of the long-term RTT, its own latency aside. */
  function Left(c: Config, v: real): real
    requires 1 <= c.longWindow
  {
    v * (1.0 - SteadyStateFactor(c.longWindow))
  }

  /** The same with drift correction. */
  function Keep(c: Config, v: real): real
    requires 1 <= c.longWindow
  {
    0.95 * Left(c, v)
  }

  /** What a window of this latency puts in. */
  function Weigh(c: Config, rtt: int): real
    requires 1 <= c.longWindow
  {
    rtt as real * SteadyStateFactor(c.longWindow)
  }

  /** A latency so large that one window of it outweighs one at the baseline. */
  function Spike(c: Config): int
    requires 2 <= c.longWindow
  {
    var f := SteadyStateFactor(c.longWindow);
    FactorBelowOne(c);
    PositiveProduct(f, 1.0 - f);
    Ceil(2.0 / (f * (1.0 - f)))
  }

  lemma FactorBelowOne(c: Config)
    requires 2 <= c.longWindow
    ensures 0.0 < SteadyStateFactor(c.longWindow) < 1.0
  {
  }

  lemma SpikeOutweighs(c: Config)
    requires 2 <= c.longWindow
    ensures 0 < Spike(c) && 2.0 <= Weigh(c, Spike(c))
    ensures forall v | Weigh(c, Spike(c)) <= v :: 1.9 <= Keep(c, v)
  {
    hide SteadyStateFactor;
    var f := SteadyStateFactor(c.longWindow);
    FactorBelowOne(c);
    PositiveProduct(f, 1.0 - f);
    RoundedUp(f * (1.0 - f), Spike(c));
    assert 0.0 < Spike(c) as real;
    forall v | Weigh(c, Spike(c)) <= v
      ensures 1.9 <= Keep(c, v)
    {
      Outweighs(Spike(c) as real, f, v);
    }
    Outweighs(Spike(c) as real, f, Weigh(c, Spike(c)));
  }

  lemma RoundedUp(d: real, n: int)
    requires 0.0 < d && n == Ceil(2.0 / d)
    ensures 2.0 <= n as real * d && 0 < n
  {
    var q := 2.0 / d;
    assert d * q == 2.0;
    PositiveQuotient(d, q);
    MulMono(d, q, n as real);
  }

  lemma Outweighs(big: real, f: real, v: real)
    requires 0.0 < f < 1.0 && 0.0 < big && 2.0 <= big * (f * (1.0 - f)) && big * f <= v
    ensures 2.0 <= big * f && 2.0 <= v * (1.0 - f)
  {
    var x, k := big * f, 1.0 - f;
    Regroup(big, f, k);
    PositiveProduct(big, f);
    MulMono(k, x, v);
    MulMono(x, k, 1.0);
    Commutes(k, x);
    Commutes(k, v);
  }

  lemma Commutes(x: real, y: real)
    ensures x * y == y * x
  {
  }

  lemma PositiveQuotient(d: real, q: real)
    requires 0.0 < d && d * q == 2.0
    ensures 0.0 < q
  {
    assert q <= 0.0 ==> d * q <= 0.0;
  }

  /** Spikes and windows of latency one, in turn. */
  function Seesaw(c: Config): Windows
    requires 2 <= c.longWindow
  {
    (n: nat) => Sample(if n % 2 == 0 then Spike(c) else 1, 0)
  }

  lemma {:induction false} SeesawStaysHigh(c: Config, m: Model, n: nat)
    requires 2 <= c.longWindow && Warm(m) && 1.9 <= m.longRtt.value
    ensures 1.9 <= At(c, m, Seesaw(c), n).longRtt.value
    ensures n % 2 == 1 ==> Weigh(c, Spike(c)) <= At(c, m, Seesaw(c), n).longRtt.value
  {
    hide Updated, Warm, Spike, Weigh, Keep;
    if 0 < n {
      var run := Seesaw(c);
      SeesawStaysHigh(c, m, n - 1);
      WarmAt(c, m, run, n - 1);
      SpikeOutweighs(c);
      OneWindowPulls(c, At(c, m, run, n - 1), run(n - 1));
    }
  }

  lemma SeesawRecurs(c: Config)
    requires 2 <= c.longWindow
    ensures LatencyRecurs(Seesaw(c), 1)
  {
    hide Spike;
    forall n: nat
      ensures LatencyLater(Seesaw(c), 1, n)
    {
      assert Seesaw(c)(2 * n + 1).rtt == 1;
    }
  }

  /** The proposal's RecoversFromAmnesia, with a baseline that recurs forever, holds exactly of a long
      window of one sample: otherwise a spike before every baseline window keeps the long-term RTT up. */
  lemma RecoversFromAmnesiaIff(c: Config)
    requires 1 <= c.longWindow
    ensures RecoversFromAmnesia(c) <==> c.longWindow == 1
  {
    hide GetsNear, LatencyRecurs, Warm;
    if c.longWindow == 1 {
      forall m: Model, run: Windows, b: int | Warm(m) && 0 < b && LatencyRecurs(run, b)
        ensures GetsNear(c, m, run, b)
      {
        LatestSample(c, m, run, b);
      }
    } else {
      SeesawRefutes(c);
    }
  }

  lemma SeesawRefutes(c: Config)
    requires 2 <= c.longWindow
    ensures !RecoversFromAmnesia(c)
  {
    hide Spike, LatencyRecurs;
    var m := Model(0.0, Average(2.0, 20.0, 10));
    SeesawRecurs(c);
    forall n: nat
      ensures !NearBaseline(At(c, m, Seesaw(c), n), 1)
    {
      SeesawStaysHigh(c, m, n);
    }
    assert Warm(m) && !GetsNear(c, m, Seesaw(c), 1);
  }
}
