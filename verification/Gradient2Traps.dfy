/** Exactly when good windows that recur forever bring the Gradient2 cap back to its ceiling
    (formal_methods/gradient2_tla_proposal.md:60-67). Bad windows in between can hold the cap down if
    and only if there is a trap: a level below the ceiling that one good window cannot lift past
    every level which the worst gradient still keeps up. */
module Gradient2Traps {
  import opened RealMath
  import opened ExpAvg
  import opened Gradient2
  import opened Gradient2Recovery
  import opened Gradient2Liveness

  /** A window within the long-term RTT, with demand for at least half the cap. */
  ghost predicate Good(c: Config, m: Model, s: Sample)
    requires 1 <= c.longWindow
  {
    0 < s.rtt && s.rtt as real <= Smoothed(c, m, s.rtt).value && HalfUsed(m, s)
  }

  ghost predicate GoodLater(c: Config, m: Model, run: Windows, n: nat)
    requires 1 <= c.longWindow
  {
    exists k: nat :: n <= k && Good(c, At(c, m, run, k), run(k))
  }

  ghost predicate GoodRecurs(c: Config, m: Model, run: Windows)
    requires 1 <= c.longWindow
  {
    forall n: nat :: GoodLater(c, m, run, n)
  }

  ghost predicate AtCeiling(c: Config, m: Model) { m.estimate == c.maxLimit as real }

  ghost predicate ReachesCeiling(c: Config, m: Model, run: Windows)
    requires 1 <= c.longWindow
  {
    exists n: nat :: AtCeiling(c, At(c, m, run, n))
  }

  /** The proposal's RecoversAfterSpike: from every warm state in range, every run in which good
      windows recur forever reaches the ceiling. */
  ghost predicate RecoversAfterSpike(c: Config)
    requires 1 <= c.longWindow
  {
    forall m: Model, run: Windows ::
      Warm(m) && InRange(c, m) && GoodRecurs(c, m, run) ==> ReachesCeiling(c, m, run)
  }

  /** A larger cap is never probed by less. */
  ghost predicate RisingProbe(c: Config) { forall i, j | i <= j :: c.probe(i) <= c.probe(j) }

  // ---------- The worst gradient ----------

  /** Tolerance times long over short latency, for a window so slow that it is all the long-term RTT has. */
  function LeastQuotient(c: Config): real
    requires 1 <= c.longWindow
  {
    c.tolerance * SteadyStateFactor(c.longWindow)
  }

  /** The gradient that a window of ever larger latency approaches from above. */
  function LowestGradient(c: Config): (g: real)
    requires 1 <= c.longWindow
    ensures 0.5 <= g <= 1.0
  {
    Max(0.5, Min(1.0, LeastQuotient(c)))
  }

  /** The share of a cap which that gradient takes. */
  function WorstShare(c: Config): (h: real)
    requires 1 <= c.longWindow
    ensures 0.0 <= h <= 0.5
  {
    1.0 - LowestGradient(c)
  }

  /** What it takes from a cap, before smoothing. */
  function Shed(c: Config, x: real): real
    requires 1 <= c.longWindow
  {
    Times(x, WorstShare(c))
  }

  /** The probe makes up for the worst gradient: a cap at or above this level never falls below it. */
  ghost predicate Barrier(c: Config, x: real)
    requires 1 <= c.longWindow
  {
    Shed(c, x) <= c.probe(Truncate(x)) as real
  }

  /** Where one good window lifts a cap, the ceiling aside. */
  function Jump(c: Config, x: real): real { x + Rise(c, x) }

  /** A level below the ceiling from which a good window neither reaches the ceiling nor a barrier. */
  ghost predicate Trap(c: Config, y: real)
    requires 1 <= c.longWindow
  {
    && c.minLimit as real <= y && Jump(c, y) < c.maxLimit as real
    && forall x | y < x <= Jump(c, y) :: !Barrier(c, x)
  }

  lemma ShedOrder(c: Config, x: real, y: real)
    requires 1 <= c.longWindow
    ensures x <= y ==> Shed(c, x) <= Shed(c, y)
    ensures x < y && 0.0 < WorstShare(c) ==> Shed(c, x) < Shed(c, y)
    ensures WorstShare(c) == 0.0 ==> Shed(c, x) == 0.0
  {
    TimesZero(x);
    hide WorstShare, Times;
    if x <= y { TimesMono(x, y, WorstShare(c)); }
    if x < y && 0.0 < WorstShare(c) { TimesStrict(x, y, WorstShare(c)); }
  }

  lemma TimesZero(x: real)
    ensures Times(x, 0.0) == 0.0
  {
  }

  lemma TruncateOrder(x: real, y: real)
    requires 0.0 <= x <= y
    ensures 0 <= Truncate(x) <= Truncate(y)
  {
  }

  lemma RiseIs(c: Config, x: real)
    ensures Rise(c, x) == Times(c.probe(Truncate(x)) as real, c.smoothing)
  {
  }

  lemma JumpOrder(c: Config, x: real, y: real)
    requires Sound(c) && RisingProbe(c) && 0.0 <= x <= y
    ensures Jump(c, x) <= Jump(c, y)
  {
    hide Rise, Times;
    TruncateOrder(x, y);
    RiseIs(c, x);
    RiseIs(c, y);
    TimesMono(c.probe(Truncate(x)) as real, c.probe(Truncate(y)) as real, c.smoothing);
  }

  lemma JumpLifts(c: Config, x: real)
    requires Sound(c) && Probing(c)
    ensures x + c.smoothing <= Jump(c, x)
  {
    hide Rise;
    RiseAtLeast(c, x, 1);
  }

  // ---------- A barrier holds ----------

  lemma ProductOrder(x: real, x': real, g: real, g': real)
    requires 0.0 <= x <= x' && 0.0 <= g <= g'
    ensures Times(x, g) <= Times(x', g')
  {
    hide Times;
    TimesMono(x, x', g);
    TimesMono(g, g', x');
    TimesCommutes(x', g);
    TimesCommutes(x', g');
  }

  /** Blending is a weighted mean of the cap and what the gradient makes of it. */
  lemma BlendIsMean(x: real, g: real, p: real, s: real)
    ensures Blend(x, g, p, s) == Times(x, 1.0 - s) + Times(Times(x, g) + p, s)
  {
  }

  lemma BlendOrder(x: real, x': real, g: real, g': real, p: real, p': real, s: real)
    requires 0.0 <= x <= x' && 0.0 <= g <= g' && p <= p' && 0.0 <= s <= 1.0
    ensures Blend(x, g, p, s) <= Blend(x', g', p', s)
  {
    hide Blend, Times;
    BlendIsMean(x, g, p, s);
    BlendIsMean(x', g', p', s);
    ProductOrder(x, x', g, g');
    TimesMono(x, x', 1.0 - s);
    TimesMono(Times(x, g) + p, Times(x', g') + p', s);
  }

  /** A window that takes no more of a cap than its probe leaves it as high. */
  lemma BlendKeeps(x: real, g: real, h: real, p: real, s: real)
    requires g == 1.0 - h && Times(x, h) <= p && 0.0 <= s
    ensures x <= Blend(x, g, p, s)
  {
    var d := p - x * h;
    MulNonNeg(s, d);
    assert x * g == x - x * h;
    assert Blend(x, g, p, s) == x + s * d;
  }

  lemma GradientAtLeast(c: Config, m: Model, rtt: int)
    requires Sound(c) && Warm(m) && 0 < rtt
    ensures LowestGradient(c) <= Gradient(c.tolerance, Smoothed(c, m, rtt).value, rtt as real)
  {
    hide Smoothed, LowestGradient, Gradient, Weigh;
    SmoothedPulls(c, m, rtt);
    GradientOrder(c, Smoothed(c, m, rtt).value, rtt);
  }

  lemma GradientOrder(c: Config, a: real, rtt: int)
    requires Sound(c) && 0 < rtt && Weigh(c, rtt) <= a
    ensures LowestGradient(c) <= Gradient(c.tolerance, a, rtt as real)
  {
    hide LeastQuotient;
    QuotientAtLeast(c, a, rtt as real);
    ClampOrder(LeastQuotient(c), c.tolerance, a, rtt as real);
  }

  lemma ClampOrder(q: real, t: real, a: real, r: real)
    requires 0.0 < r && q <= t * a / r
    ensures Max(0.5, Min(1.0, q)) <= Gradient(t, a, r)
  {
  }

  lemma QuotientAtLeast(c: Config, a: real, r: real)
    requires Sound(c) && 0.0 < r && r * SteadyStateFactor(c.longWindow) <= a
    ensures LeastQuotient(c) <= c.tolerance * a / r
  {
    TimesQuotient(c.tolerance, SteadyStateFactor(c.longWindow), a, r);
  }

  lemma TimesQuotient(t: real, f: real, a: real, r: real)
    requires 0.0 < r && 0.0 <= t && r * f <= a
    ensures t * f <= t * a / r
  {
    var q := t * a / r;
    assert r * q == t * a;
    MulMono(t, r * f, a);
    assert r * (t * f) == t * (r * f);
    MulCancel(r, t * f, q);
  }

  /** The floor of the range, or a barrier in it. */
  ghost predicate Floor(c: Config, b: real)
    requires 1 <= c.longWindow
  {
    c.minLimit as real <= b <= c.maxLimit as real && (b == c.minLimit as real || Barrier(c, b))
  }

  lemma MovedAbove(c: Config, b: real, x: real, g: real)
    requires Sound(c) && RisingProbe(c) && Floor(c, b) && b <= x && LowestGradient(c) <= g
    ensures b <= Moved(c, x, g)
  {
    if Barrier(c, b) {
      hide LowestGradient, Times;
      TruncateOrder(b, x);
      BlendKeeps(b, LowestGradient(c), WorstShare(c), c.probe(Truncate(b)) as real, c.smoothing);
      hide Blend;
      BlendOrder(b, x, LowestGradient(c), g, c.probe(Truncate(b)) as real, c.probe(Truncate(x)) as real, c.smoothing);
    }
  }

  lemma FloorStep(c: Config, m: Model, s: Sample, b: real)
    requires Sound(c) && RisingProbe(c) && Warm(m) && Floor(c, b) && b <= m.estimate
    ensures b <= Updated(c, m, s).estimate
  {
    hide Moved, Gradient, Smoothed, Corrected, LowestGradient, Floor;
    if 0 < s.rtt && !AppLimited(m, s) {
      GradientAtLeast(c, m, s.rtt);
      MovedAbove(c, b, m.estimate, Gradient(c.tolerance, Smoothed(c, m, s.rtt).value, s.rtt as real));
    }
  }

  lemma {:induction false} Keeps(c: Config, m: Model, run: Windows, n: nat)
    requires Sound(c) && Warm(m) && InRange(c, m)
    ensures Warm(At(c, m, run, n)) && InRange(c, At(c, m, run, n))
  {
    hide Updated, Warm, InRange, ShedFloor, Rise;
    if 0 < n {
      Keeps(c, m, run, n - 1);
      WarmStep(c, At(c, m, run, n - 1), run(n - 1));
      UpdateBounds(c, At(c, m, run, n - 1), run(n - 1));
    }
  }

  lemma {:induction false} FloorHolds(c: Config, m: Model, run: Windows, n: nat, k: nat, b: real)
    requires Sound(c) && RisingProbe(c) && Warm(m) && InRange(c, m) && Floor(c, b) && n <= k
    requires b <= At(c, m, run, n).estimate
    ensures b <= At(c, m, run, k).estimate
    decreases k
  {
    hide Updated, Warm, InRange, Floor;
    if n < k {
      FloorHolds(c, m, run, n, k - 1, b);
      Keeps(c, m, run, k - 1);
      FloorStep(c, At(c, m, run, k - 1), run(k - 1), b);
    }
  }

  // ---------- Without a trap, every second good window gains ----------

  lemma GoodStep(c: Config, m: Model, s: Sample)
    requires Sound(c) && Warm(m) && InRange(c, m) && Good(c, m, s)
    ensures Updated(c, m, s).estimate == Min(c.maxLimit as real, Jump(c, m.estimate))
  {
    hide Updated, Smoothed, Rise;
    AtLeastOnce(c.tolerance, Smoothed(c, m, s.rtt).value);
    NoSheddingWithoutQueuing(c, m, s);
  }

  lemma GoodAfter(c: Config, m: Model, run: Windows, n: nat) returns (k: nat)
    requires Sound(c) && GoodRecurs(c, m, run)
    ensures n <= k && Good(c, At(c, m, run, k), run(k))
  {
    hide Good, At;
    assert GoodLater(c, m, run, n);
    k :| n <= k && Good(c, At(c, m, run, k), run(k));
  }

  lemma FloorInRange(c: Config, b: real)
    requires Sound(c) && Floor(c, b)
    ensures 0.0 <= b <= c.maxLimit as real
  {
  }

  /** The next good window lifts a cap at or above a floor at least to where it lifts the floor. */
  lemma NextGood(c: Config, m: Model, run: Windows, n: nat, b: real) returns (k: nat)
    requires Sound(c) && RisingProbe(c) && Warm(m) && InRange(c, m) && GoodRecurs(c, m, run)
    requires Floor(c, b) && b <= At(c, m, run, n).estimate
    ensures n < k && Min(c.maxLimit as real, Jump(c, b)) <= At(c, m, run, k).estimate
  {
    hide Updated, Warm, InRange, Good, Jump, Smoothed, At, Floor;
    var i := GoodAfter(c, m, run, n);
    k := i + 1;
    AtNext(c, m, run, i);
    InRangeAt(c, m, run, i);
    FloorInRange(c, b);
    FloorHolds(c, m, run, n, i, b);
    Keeps(c, m, run, i);
    GoodStep(c, At(c, m, run, i), run(i));
    JumpOrder(c, b, At(c, m, run, i).estimate);
  }

  /** The level at which the worst gradient takes exactly p. */
  lemma Balance(c: Config, p: real) returns (t: real)
    requires 1 <= c.longWindow && 0.0 < WorstShare(c)
    ensures Shed(c, t) == p && t == p / WorstShare(c)
  {
    hide WorstShare;
    t := p / WorstShare(c);
  }

  lemma NextCellBlocked(c: Config, x: real, t: real)
    requires Sound(c) && RisingProbe(c) && 0.0 <= x
    requires Shed(c, t) == c.probe(Truncate(x)) as real
    ensures (x.Floor + 1) as real <= t ==> Barrier(c, (x.Floor + 1) as real)
  {
    hide Shed;
    ShedOrder(c, (x.Floor + 1) as real, t);
    TruncateOrder(x, (x.Floor + 1) as real);
  }

  /** Of the barriers in an interval there is a greatest one: the search goes down cell by cell, a
      cell being the caps that truncate to one integer. */
  lemma {:induction false} GreatestBarrier(c: Config, lo: real, hi: real, x: real, n: int) returns (b: real)
    requires Sound(c) && RisingProbe(c) && 0.0 <= lo < x <= hi && Barrier(c, x)
    requires x.Floor <= n <= hi.Floor
    requires forall y | lo < y <= hi && Barrier(c, y) :: y.Floor <= n
    ensures lo < b <= hi && Barrier(c, b)
    ensures forall y | b < y <= hi :: !Barrier(c, y)
    decreases n - x.Floor
  {
    hide Shed, Barrier, WorstShare;
    if Barrier(c, hi) {
      return hi;
    }
    BelowOne(c, hi);
    if y :| lo < y <= hi && Barrier(c, y) && y.Floor == n {
      b := TopOfCell(c, lo, hi, y);
    } else {
      b := GreatestBarrier(c, lo, hi, x, n - 1);
    }
  }

  /** Where a level is no barrier the worst gradient is below one. */
  lemma BelowOne(c: Config, x: real)
    requires Sound(c) && !Barrier(c, x)
    ensures 0.0 < WorstShare(c)
  {
    hide WorstShare, Shed;
    ShedOrder(c, x, x);
  }

  lemma TopOfCell(c: Config, lo: real, hi: real, y: real) returns (b: real)
    requires Sound(c) && RisingProbe(c) && 0.0 <= lo < y <= hi && Barrier(c, y)
    requires !Barrier(c, hi) && 0.0 < WorstShare(c)
    requires forall z | lo < z <= hi && Barrier(c, z) :: z.Floor <= y.Floor
    ensures lo < b <= hi && Barrier(c, b)
    ensures forall z | b < z <= hi :: !Barrier(c, z)
  {
    b := Balance(c, c.probe(y.Floor) as real);
    hide Shed, WorstShare;
    var next := (y.Floor + 1) as real;
    ShedOrder(c, b, y);
    assert y <= b;
    NextCellBlocked(c, y, b);
    if hi < next {
      assert hi.Floor == y.Floor;
      ShedOrder(c, hi, b);
      assert b < hi;
    } else {
      assert next.Floor == y.Floor + 1;
      assert !Barrier(c, next);
    }
    assert b.Floor == y.Floor;
    forall z | b < z <= hi
      ensures !Barrier(c, z)
    {
      if z < next {
        ShedOrder(c, b, z);
        assert z.Floor == y.Floor;
      }
    }
  }

  /** From a floor, two good windows reach the ceiling or a floor higher by the smoothing weight. */
  lemma TwoGoods(c: Config, m: Model, run: Windows, n: nat, b: real) returns (k: nat, b': real)
    requires Sound(c) && RisingProbe(c) && Probing(c) && (forall y: real :: !Trap(c, y))
    requires Warm(m) && InRange(c, m) && GoodRecurs(c, m, run)
    requires Floor(c, b) && b <= At(c, m, run, n).estimate
    ensures AtCeiling(c, At(c, m, run, k))
         || (Floor(c, b') && b' <= At(c, m, run, k).estimate && b + c.smoothing < b')
  {
    hide Updated, Warm, InRange, GoodRecurs, Barrier;
    b' := b;
    k := NextGood(c, m, run, n, b);
    InRangeAt(c, m, run, k);
    if c.maxLimit as real <= Jump(c, b) {
      return;
    }
    JumpLifts(c, b);
    assert !Trap(c, b);
    var x :| b < x <= Jump(c, b) && Barrier(c, x);
    hide Jump;
    var b1 := GreatestBarrier(c, b, Jump(c, b), x, Jump(c, b).Floor);
    k := NextGood(c, m, run, k, b1);
    InRangeAt(c, m, run, k);
    if c.maxLimit as real <= Jump(c, b1) {
      return;
    }
    assert !Trap(c, b1);
    b' :| b1 < b' <= Jump(c, b1) && Barrier(c, b');
  }

  lemma InRangeAt(c: Config, m: Model, run: Windows, n: nat)
    requires Sound(c) && Warm(m) && InRange(c, m)
    ensures c.minLimit as real <= At(c, m, run, n).estimate <= c.maxLimit as real
  {
    hide Updated, Warm;
    Keeps(c, m, run, n);
  }

  lemma {:induction false} GoodsReach(c: Config, m: Model, run: Windows, n: nat, b: real, steps: nat)
    requires Sound(c) && RisingProbe(c) && Probing(c) && (forall y: real :: !Trap(c, y))
    requires Warm(m) && InRange(c, m) && GoodRecurs(c, m, run)
    requires Floor(c, b) && b <= At(c, m, run, n).estimate
    requires c.maxLimit as real <= b + Gain(steps, c.smoothing)
    ensures ReachesCeiling(c, m, run)
    decreases steps
  {
    hide Updated, Warm, InRange, GoodRecurs, Trap, Gain, Barrier;
    GainStep(if steps == 0 then 0 else steps - 1, c.smoothing);
    if steps == 0 {
      InRangeAt(c, m, run, n);
      assert AtCeiling(c, At(c, m, run, n));
    } else {
      var k, b' := TwoGoods(c, m, run, n, b);
      if !AtCeiling(c, At(c, m, run, k)) {
        GoodsReach(c, m, run, k, b', steps - 1);
      }
    }
  }

  /** Without a trap, good windows that recur forever suffice. */
  lemma NoTrapRecovers(c: Config)
    requires Sound(c) && RisingProbe(c) && Probing(c) && forall y: real :: !Trap(c, y)
    ensures RecoversAfterSpike(c)
  {
    hide Updated, Warm, InRange, GoodRecurs, Trap, Gain, ReachesCeiling, Barrier;
    var steps: nat := Needed(c);
    forall m: Model, run: Windows | Warm(m) && InRange(c, m) && GoodRecurs(c, m, run)
      ensures ReachesCeiling(c, m, run)
    {
      InRangeAt(c, m, run, 0);
      GoodsReach(c, m, run, 0, c.minLimit as real, steps);
    }
  }

  lemma Needed(c: Config) returns (steps: nat)
    requires Sound(c)
    ensures c.maxLimit as real <= c.minLimit as real + Gain(steps, c.smoothing)
  {
    var width := (c.maxLimit - c.minLimit) as real;
    var n := Ceil(width / c.smoothing);
    steps := if n < 0 then 0 else n;
    WindowsCover(width, c.smoothing, steps);
  }
}
