/** A trap holds the Gradient2 cap down for ever: an infinite run of good windows, each followed by as
    many slow ones as it takes to undo it. With it, the exact conditions under which good windows that
    recur forever bring the cap back. */
module Gradient2TrapRuns {
  import opened RealMath
  import opened ExpAvg
  import opened Gradient2
  import opened Gradient2Recovery
  import opened Gradient2Liveness
  import opened Gradient2Traps

  /** Below the threshold a good window is harmless: it lifts the cap at most to the roof. From the
      threshold up to the roof a window that takes this share of the cap takes at least `loss` more
      than the probe adds. */
  datatype Plan = Plan(threshold: real, roof: real, share: real, loss: real)

  function Taken(pl: Plan, x: real): real { Times(x, pl.share) }

  function GradientOf(pl: Plan): real { 1.0 - pl.share }

  ghost predicate Planned(c: Config, pl: Plan)
    requires 1 <= c.longWindow
  {
    && c.minLimit as real < pl.threshold <= pl.roof < c.maxLimit as real
    && Jump(c, pl.threshold) <= pl.roof
    && 0.0 <= pl.share <= 0.5 && LeastQuotient(c) < GradientOf(pl) && 0.0 < pl.loss
    && forall x | pl.threshold <= x <= pl.roof :: c.probe(Truncate(x)) as real + pl.loss <= Taken(pl, x)
  }

  // ---------- From a trap to a plan ----------

  /** Over an interval without barriers the worst gradient takes more than the probe by a margin: there
      are only finitely many probes in it. */
  lemma {:induction false} Margin(c: Config, lo: real, hi: real) returns (margin: real)
    requires Sound(c) && 0.0 <= lo <= hi && forall x | lo <= x <= hi :: !Barrier(c, x)
    ensures 0.0 < margin
    ensures forall x | lo <= x <= hi :: c.probe(Truncate(x)) as real + margin <= Shed(c, x)
    decreases hi.Floor - lo.Floor
  {
    hide Shed;
    margin := Shed(c, lo) - c.probe(Truncate(lo)) as real;
    assert !Barrier(c, lo);
    var next := (lo.Floor + 1) as real;
    if next <= hi {
      var rest := Margin(c, next, hi);
      if rest < margin { margin := rest; }
    }
    forall x | lo <= x <= hi
      ensures c.probe(Truncate(x)) as real + margin <= Shed(c, x)
    {
      if x < next {
        assert x.Floor == lo.Floor;
        ShedOrder(c, lo, x);
      }
    }
  }

  /** A step so small that it stays in the cell of y and of z, and below the limit. */
  lemma SmallStep(y: real, z: real, limit: real) returns (e: real)
    requires z < limit
    ensures 0.0 < e && (y + e).Floor == y.Floor && (z + e).Floor == z.Floor && z + e < limit
  {
    e := Min((y.Floor + 1) as real - y, Min((z.Floor + 1) as real - z, limit - z)) / 2.0;
  }

  lemma ClearAbove(c: Config, y: real, e: real, x: real)
    requires Sound(c) && Trap(c, y) && 0.0 < e && (Jump(c, y) + e).Floor == Jump(c, y).Floor
    requires y < Jump(c, y) && y < x <= Jump(c, y) + e
    ensures !Barrier(c, x)
  {
    hide Shed, Jump;
    if Jump(c, y) < x {
      assert !Barrier(c, Jump(c, y));
      ShedOrder(c, Jump(c, y), x);
      assert x.Floor == Jump(c, y).Floor;
    }
  }

  lemma TakenAtLeast(c: Config, pl: Plan, margin: real, d: real, x: real)
    requires Sound(c) && 0.0 < d && pl.share == WorstShare(c) - d
    requires 0.0 <= x <= pl.roof && Times(pl.roof, d) == margin / 2.0
    ensures Shed(c, x) - margin / 2.0 <= Taken(pl, x)
  {
    hide WorstShare, Times;
    TimesMono(x, pl.roof, d);
    Difference(x, WorstShare(c), d, pl.share);
  }

  lemma Difference(x: real, h: real, d: real, k: real)
    requires k == h - d
    ensures Times(x, k) == Times(x, h) - Times(x, d)
  {
  }

  lemma PlanFor(c: Config, y: real) returns (pl: Plan)
    requires Sound(c) && RisingProbe(c) && Probing(c) && Trap(c, y)
    ensures Planned(c, pl)
  {
    hide WorstShare, Rise, Shed;
    JumpLifts(c, y);
    assert !Barrier(c, Jump(c, y));
    BelowOne(c, Jump(c, y));
    var e := SmallStep(y, Jump(c, y), c.maxLimit as real);
    SameLift(c, y, e);
    forall x | y + e <= x <= Jump(c, y) + e
      ensures !Barrier(c, x)
    {
      ClearAbove(c, y, e, x);
    }
    pl := PlanFrom(c, y + e, Jump(c, y) + e);
  }

  /** Within a cell a good window lifts every cap by the same amount. */
  lemma SameLift(c: Config, y: real, e: real)
    requires 0.0 <= y && 0.0 <= e && (y + e).Floor == y.Floor
    ensures Jump(c, y + e) == Jump(c, y) + e
  {
    assert Truncate(y + e) == Truncate(y);
  }

  lemma PlanFrom(c: Config, lo: real, hi: real) returns (pl: Plan)
    requires Sound(c) && Probing(c) && c.minLimit as real < lo < hi < c.maxLimit as real && Jump(c, lo) <= hi
    requires 0.0 < WorstShare(c) && forall x | lo <= x <= hi :: !Barrier(c, x)
    ensures Planned(c, pl)
  {
    var margin := Margin(c, lo, hi);
    var d := margin / (2.0 * hi);
    Halves(margin, hi, d);
    pl := Plan(lo, hi, WorstShare(c) - d, margin / 2.0);
    hide Jump, Barrier, Shed, LeastQuotient;
    forall x | lo <= x <= hi
      ensures c.probe(Truncate(x)) as real + pl.loss <= Taken(pl, x)
    {
      TakenAtLeast(c, pl, margin, d, x);
    }
    TakesSomething(pl, hi);
  }

  lemma TakesSomething(pl: Plan, x: real)
    requires 0.0 < x && 0.0 < Taken(pl, x)
    ensures 0.0 < pl.share
  {
    TimesCommutes(pl.share, x);
    SignOf(x, pl.share);
  }

  lemma Halves(margin: real, hi: real, d: real)
    requires 0.0 < margin && 0.0 < hi && d == margin / (2.0 * hi)
    ensures 0.0 < d && Times(hi, d) == margin / 2.0
  {
    assert d * (2.0 * hi) == margin;
    SignOf(2.0 * hi, d);
  }

  lemma SignOf(k: real, x: real)
    requires 0.0 < k && 0.0 < Times(x, k)
    ensures 0.0 < x
  {
    assert x <= 0.0 ==> x * k <= 0.0;
  }

  // ---------- The run ----------

  /** A latency so large that the gradient of its window is at most the planned one. */
  function Slow(c: Config, pl: Plan, longRtt: real): (rtt: int)
    requires 1 <= c.longWindow && LeastQuotient(c) < GradientOf(pl)
    ensures 1 <= rtt
  {
    var n := Ceil(c.tolerance * longRtt / (GradientOf(pl) - LeastQuotient(c)));
    if n < 1 then 1 else n
  }

  lemma SlowGradient(c: Config, pl: Plan, m: Model)
    requires Sound(c) && Planned(c, pl) && Warm(m)
    ensures var rtt := Slow(c, pl, m.longRtt.value);
      Gradient(c.tolerance, Smoothed(c, m, rtt).value, rtt as real) <= GradientOf(pl)
  {
    var rtt, v, f := Slow(c, pl, m.longRtt.value), m.longRtt.value, SteadyStateFactor(c.longWindow);
    SlowEnough(c, pl, v);
    FactorIsWeight(c.longWindow);
    SmoothedAtMost(c, m, rtt);
    hide Smoothed, SteadyStateFactor, Slow;
    QuotientAtMost(c.tolerance, Smoothed(c, m, rtt).value, rtt as real, f, v, GradientOf(pl));
  }

  lemma SlowEnough(c: Config, pl: Plan, v: real)
    requires Sound(c) && LeastQuotient(c) < GradientOf(pl)
    ensures c.tolerance * v <= Slow(c, pl, v) as real * (GradientOf(pl) - LeastQuotient(c))
  {
    hide LeastQuotient;
    var x, d, r := c.tolerance * v, GradientOf(pl) - LeastQuotient(c), Slow(c, pl, v) as real;
    var q := x / d;
    assert q * d == x;
    assert q <= r;
    TimesMono(q, r, d);
  }

  lemma SmoothedAtMost(c: Config, m: Model, rtt: int)
    requires Sound(c) && Warm(m) && 0 < rtt
    ensures Smoothed(c, m, rtt).value <= m.longRtt.value + rtt as real * SteadyStateFactor(c.longWindow)
  {
    var f, v := SteadyStateFactor(c.longWindow), m.longRtt.value;
    FactorIsWeight(c.longWindow);
    MulMono(v, 1.0 - f, 1.0);
    assert Smoothed(c, m, rtt).value == v * (1.0 - f) + rtt as real * f;
  }

  lemma QuotientAtMost(t: real, a: real, r: real, f: real, v: real, g: real)
    requires 0.0 < r && 0.0 <= t && 0.5 <= g
    requires a <= v + r * f && t * v <= r * (g - t * f)
    ensures Gradient(t, a, r) <= g
  {
    var q := t * a / r;
    assert r * q == t * a;
    MulMono(t, a, v + r * f);
    assert t * (v + r * f) == t * v + r * (t * f);
    assert r * (g - t * f) == r * g - r * (t * f);
    MulCancel(r, q, g);
  }

  /** Below the threshold a good window, from it on a slow one; always with full demand. */
  function Move(c: Config, pl: Plan, m: Model): Sample
    requires 1 <= c.longWindow && LeastQuotient(c) < GradientOf(pl)
  {
    Sample(if m.estimate < pl.threshold then 1 else Slow(c, pl, m.longRtt.value), c.maxLimit)
  }

  /** The cap stays below the roof, and a window of latency one within the long-term RTT. */
  ghost predicate Caught(c: Config, pl: Plan, m: Model) {
    Warm(m) && 1.0 <= m.longRtt.value && InRange(c, m) && m.estimate <= pl.roof
  }

  lemma MoveIsBusy(c: Config, pl: Plan, m: Model)
    requires Sound(c) && Planned(c, pl) && Caught(c, pl, m)
    ensures HalfUsed(m, Move(c, pl, m)) && 1 <= Move(c, pl, m).rtt
  {
    hide Slow;
  }

  /** One window of latency at least one keeps the long-term RTT at least one. */
  lemma StaysAtLeastOne(c: Config, m: Model, s: Sample)
    requires Sound(c) && Warm(m) && 1.0 <= m.longRtt.value && 1 <= s.rtt
    ensures Warm(Updated(c, m, s)) && 1.0 <= Updated(c, m, s).longRtt.value
  {
    hide Updated, Smoothed, SteadyStateFactor;
    DeviationStep(c, m, s);
    FactorIsWeight(c.longWindow);
    var d, f := m.longRtt.value - s.rtt as real, SteadyStateFactor(c.longWindow);
    if d < 0.0 {
      MulNonNeg(-d, f);
      assert d * (1.0 - f) == d + (-d) * f;
    }
  }

  lemma GoodMove(c: Config, pl: Plan, m: Model)
    requires Sound(c) && RisingProbe(c) && Planned(c, pl) && Caught(c, pl, m) && m.estimate < pl.threshold
    ensures Good(c, m, Move(c, pl, m))
    ensures Updated(c, m, Move(c, pl, m)).estimate <= pl.roof
  {
    MoveIsBusy(c, pl, m);
    OneIsGood(c, m);
    hide Updated, Smoothed, Jump, Slow;
    GoodStep(c, m, Move(c, pl, m));
    JumpOrder(c, m.estimate, pl.threshold);
  }

  lemma OneIsGood(c: Config, m: Model)
    requires Sound(c) && Warm(m) && 1.0 <= m.longRtt.value
    ensures 1.0 <= Smoothed(c, m, 1).value
  {
    var f, v := SteadyStateFactor(c.longWindow), m.longRtt.value;
    FactorIsWeight(c.longWindow);
    BlendBetween(v, 1.0, f, 1.0, v);
  }

  /** A slow window takes the planned loss, or reaches the floor of the range. */
  lemma SlowMove(c: Config, pl: Plan, m: Model)
    requires Sound(c) && Planned(c, pl) && Caught(c, pl, m) && pl.threshold <= m.estimate
    ensures Updated(c, m, Move(c, pl, m)).estimate <= Max(c.minLimit as real, m.estimate - c.smoothing * pl.loss)
  {
    MoveIsBusy(c, pl, m);
    SlowGradient(c, pl, m);
    hide Smoothed, Gradient, Slow, Corrected;
    var s := Move(c, pl, m);
    var g := Gradient(c.tolerance, Smoothed(c, m, s.rtt).value, s.rtt as real);
    GradientRange(c.tolerance, Smoothed(c, m, s.rtt).value, s.rtt as real);
    SlowMoved(c, pl, m.estimate, g);
  }

  lemma SlowMoved(c: Config, pl: Plan, x: real, g: real)
    requires Sound(c) && Planned(c, pl) && 0.5 <= g <= GradientOf(pl) && pl.threshold <= x <= pl.roof
    ensures Moved(c, x, g) <= Max(c.minLimit as real, x - c.smoothing * pl.loss)
  {
    hide Blend, Jump, GradientOf, Times;
    var p := c.probe(Truncate(x)) as real;
    BlendOrder(x, x, g, GradientOf(pl), p, p, c.smoothing);
    Definition(pl);
    BlendTakes(x, GradientOf(pl), pl.share, p, c.smoothing, pl.loss);
  }

  lemma Definition(pl: Plan)
    ensures GradientOf(pl) == 1.0 - pl.share
  {
  }

  lemma BlendTakes(x: real, g: real, h: real, p: real, s: real, loss: real)
    requires g == 1.0 - h && 0.0 <= s && p + loss <= Times(x, h)
    ensures Blend(x, g, p, s) <= x - s * loss
  {
    var d := x * h - p - loss;
    MulNonNeg(s, d);
    assert x * g == x - x * h;
    assert Blend(x, g, p, s) == x - s * loss - s * d;
  }

  lemma MoveKeeps(c: Config, pl: Plan, m: Model)
    requires Sound(c) && RisingProbe(c) && Planned(c, pl) && Caught(c, pl, m)
    ensures Caught(c, pl, Updated(c, m, Move(c, pl, m)))
  {
    var s := Move(c, pl, m);
    MoveIsBusy(c, pl, m);
    hide Updated, Slow, Move, ShedFloor, Rise, Jump;
    StaysAtLeastOne(c, m, s);
    UpdateBounds(c, m, s);
    if m.estimate < pl.threshold {
      GoodMove(c, pl, m);
    } else {
      SlowMove(c, pl, m);
      MulNonNeg(c.smoothing, pl.loss);
    }
  }

  function Play(c: Config, pl: Plan, m: Model, n: nat): Model
    requires 1 <= c.longWindow && LeastQuotient(c) < GradientOf(pl)
  {
    if n == 0 then m else
      var before := Play(c, pl, m, n - 1);
      Updated(c, before, Move(c, pl, before))
  }

  function Strategy(c: Config, pl: Plan, m: Model): Windows
    requires 1 <= c.longWindow && LeastQuotient(c) < GradientOf(pl)
  {
    (n: nat) => Move(c, pl, Play(c, pl, m, n))
  }

  lemma {:induction false} StrategyPlays(c: Config, pl: Plan, m: Model, n: nat)
    requires 1 <= c.longWindow && LeastQuotient(c) < GradientOf(pl)
    ensures At(c, m, Strategy(c, pl, m), n) == Play(c, pl, m, n)
  {
    hide Updated, Move, LeastQuotient;
    if 0 < n {
      StrategyPlays(c, pl, m, n - 1);
    }
  }

  lemma {:induction false} PlayKeeps(c: Config, pl: Plan, m: Model, n: nat)
    requires Sound(c) && RisingProbe(c) && Planned(c, pl) && Caught(c, pl, m)
    ensures Caught(c, pl, Play(c, pl, m, n))
  {
    hide Updated, Move, Caught, Jump;
    if 0 < n {
      PlayKeeps(c, pl, m, n - 1);
      MoveKeeps(c, pl, Play(c, pl, m, n - 1));
    }
  }

  /** Slow windows bring the cap back below the threshold, where the next good window follows. */
  lemma {:induction false} GoodComes(c: Config, pl: Plan, m: Model, n: nat, steps: nat) returns (k: nat)
    requires Sound(c) && RisingProbe(c) && Planned(c, pl) && Caught(c, pl, m)
    requires Play(c, pl, m, n).estimate < pl.threshold + Gain(steps, c.smoothing * pl.loss)
    ensures n <= k && Play(c, pl, m, k).estimate < pl.threshold
    decreases steps
  {
    hide Updated, Move, Caught, Jump, Gain;
    var x, loss := Play(c, pl, m, n), c.smoothing * pl.loss;
    MulNonNeg(c.smoothing, pl.loss);
    GainStep(if steps == 0 then 0 else steps - 1, loss);
    k := n;
    if pl.threshold <= x.estimate {
      PlayKeeps(c, pl, m, n);
      SlowMove(c, pl, x);
      if pl.threshold <= Play(c, pl, m, n + 1).estimate {
        k := GoodComes(c, pl, m, n + 1, steps - 1);
      } else {
        k := n + 1;
      }
    }
  }

  lemma GoodsRecur(c: Config, pl: Plan, m: Model)
    requires Sound(c) && RisingProbe(c) && Planned(c, pl) && Caught(c, pl, m)
    ensures GoodRecurs(c, m, Strategy(c, pl, m))
  {
    hide Updated, Move, Caught, Jump, Gain, Good, Strategy;
    forall n: nat
      ensures GoodLater(c, m, Strategy(c, pl, m), n)
    {
      GoodAgain(c, pl, m, n);
    }
  }

  lemma GoodAgain(c: Config, pl: Plan, m: Model, n: nat)
    requires Sound(c) && RisingProbe(c) && Planned(c, pl) && Caught(c, pl, m)
    ensures GoodLater(c, m, Strategy(c, pl, m), n)
  {
    hide Updated, Move, Caught, Jump, Gain, Good, At;
    var steps := Enough(c, pl);
    PlayBelow(c, pl, m, n);
    var k := GoodComes(c, pl, m, n, steps);
    PlayKeeps(c, pl, m, k);
    GoodMove(c, pl, Play(c, pl, m, k));
    StrategyPlays(c, pl, m, k);
  }

  lemma PlayBelow(c: Config, pl: Plan, m: Model, n: nat)
    requires Sound(c) && RisingProbe(c) && Planned(c, pl) && Caught(c, pl, m)
    ensures Play(c, pl, m, n).estimate <= pl.roof
  {
    hide Updated, Move, Jump;
    PlayKeeps(c, pl, m, n);
  }

  lemma Enough(c: Config, pl: Plan) returns (steps: nat)
    requires Sound(c) && Planned(c, pl)
    ensures pl.roof < pl.threshold + Gain(steps, c.smoothing * pl.loss)
  {
    hide Jump;
    var loss := c.smoothing * pl.loss;
    PositiveProduct(c.smoothing, pl.loss);
    steps := Ceil((pl.roof - pl.threshold + 1.0) / loss);
    RoundsUp(pl.roof - pl.threshold + 1.0, loss);
    WindowsCover(pl.roof - pl.threshold + 1.0, loss, steps);
  }

  lemma RoundsUp(width: real, s: real)
    requires 0.0 < s && 0.0 < width
    ensures 0 <= Ceil(width / s)
  {
    var q := width / s;
    assert q * s == width;
    SignOf(s, q);
  }

  /** A state that a new limiter is in after ten idle windows of latency one. */
  function Idle(c: Config): Model { Model(c.minLimit as real, Average(1.0, 10.0, 10)) }

  /** A trap refutes recovery: from the floor of the range the strategy has good windows forever and
      stays below the ceiling. */
  lemma TrapHolds(c: Config, y: real)
    requires Sound(c) && RisingProbe(c) && Probing(c) && Trap(c, y)
    ensures exists run: Windows ::
      GoodRecurs(c, Idle(c), run) && !ReachesCeiling(c, Idle(c), run)
    ensures !RecoversAfterSpike(c)
  {
    hide Trap, Jump, GoodRecurs, At, Barrier, Move;
    var pl := PlanFor(c, y);
    var m := Idle(c);
    assert Caught(c, pl, m);
    GoodsRecur(c, pl, m);
    forall n: nat
      ensures !AtCeiling(c, At(c, m, Strategy(c, pl, m), n))
    {
      PlayBelow(c, pl, m, n);
      StrategyPlays(c, pl, m, n);
    }
    assert GoodRecurs(c, m, Strategy(c, pl, m)) && !ReachesCeiling(c, m, Strategy(c, pl, m));
  }

  /** The proposal's RecoversAfterSpike, with good windows that recur forever, holds exactly of a
      configuration without a trap. */
  lemma RecoversAfterSpikeIff(c: Config)
    requires Sound(c) && RisingProbe(c) && Probing(c)
    ensures RecoversAfterSpike(c) <==> forall y: real :: !Trap(c, y)
  {
    hide Trap, RecoversAfterSpike;
    if y: real :| Trap(c, y) {
      TrapHolds(c, y);
    } else {
      NoTrapRecovers(c);
    }
  }
}
