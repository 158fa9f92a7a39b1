/** When good windows that recur forever bring the Gradient2 cap back, read off the configuration: a
    finite check for every rising probe, the default one among them, and a closed form for constant
    probes. */
module Gradient2Conditions {
  import opened RealMath
  import opened ExpAvg
  import opened Gradient2
  import opened Gradient2Recovery
  import opened Gradient2Liveness
  import opened Gradient2Traps
  import opened Gradient2TrapRuns

  // ---------- Cell by cell ----------

  /** Among the caps that truncate to n, where the barriers end. */
  function CellStart(c: Config, n: int): real
    requires 1 <= c.longWindow && 0.0 < WorstShare(c)
  {
    Max(n as real, c.probe(n) as real / WorstShare(c))
  }

  /** Where one good window lifts a cap from there. */
  function CellRoof(c: Config, n: int): real
    requires 1 <= c.longWindow && 0.0 < WorstShare(c)
  {
    CellStart(c, n) + c.smoothing * c.probe(n) as real
  }

  ghost predicate BarrierAt(c: Config, n: int)
    requires 1 <= c.longWindow
  {
    Shed(c, n as real) <= c.probe(n) as real
  }

  /** The caps that truncate to n hold a trap: their barriers end within the cell, one good window from
      there stays below the ceiling, and no integer it passes is a barrier. */
  ghost predicate TrapCell(c: Config, n: int)
    requires 1 <= c.longWindow
  {
    && 0.0 < WorstShare(c) && c.minLimit <= n
    && CellStart(c, n) < (n + 1) as real && CellRoof(c, n) < c.maxLimit as real
    && forall k: int | n < k && k as real <= CellRoof(c, n) :: !BarrierAt(c, k)
  }

  lemma CellStartBounds(c: Config, n: int)
    requires 1 <= c.longWindow && 0.0 < WorstShare(c)
    ensures n as real <= CellStart(c, n) && c.probe(n) as real <= Shed(c, CellStart(c, n))
    ensures forall x | n as real <= x && c.probe(n) as real <= Shed(c, x) :: CellStart(c, n) <= x
  {
    hide WorstShare;
    var t := Balance(c, c.probe(n) as real);
    hide Shed;
    ShedOrder(c, t, n as real);
    forall x | n as real <= x && c.probe(n) as real <= Shed(c, x)
      ensures CellStart(c, n) <= x
    {
      ShedOrder(c, x, t);
    }
  }

  lemma JumpInCell(c: Config, y: real)
    requires 0.0 <= y
    ensures Jump(c, y) == y + c.smoothing * c.probe(y.Floor) as real
  {
  }

  lemma IntegerBarrier(c: Config, n: int)
    requires 1 <= c.longWindow && 0 <= n
    ensures BarrierAt(c, n) <==> Barrier(c, n as real)
  {
    assert Truncate(n as real) == n;
  }

  lemma CellClear(c: Config, n: int, x: real)
    requires Sound(c) && TrapCell(c, n) && CellStart(c, n) < x <= CellRoof(c, n)
    ensures !Barrier(c, x)
  {
    CellStartBounds(c, n);
    hide WorstShare, Shed, CellStart, CellRoof;
    var k := x.Floor;
    if k == n {
      ShedOrder(c, CellStart(c, n), x);
    } else {
      assert !BarrierAt(c, k);
      ShedOrder(c, k as real, x);
    }
  }

  lemma RoofIsJump(c: Config, n: int)
    requires Sound(c) && TrapCell(c, n)
    ensures Jump(c, CellStart(c, n)) == CellRoof(c, n)
  {
    hide WorstShare, Shed;
    CellStartBounds(c, n);
    JumpInCell(c, CellStart(c, n));
    hide CellStart;
    assert CellStart(c, n).Floor == n;
  }

  lemma CellHoldsTrap(c: Config, n: int)
    requires Sound(c) && RisingProbe(c) && Probing(c) && TrapCell(c, n)
    ensures Trap(c, CellStart(c, n))
  {
    CellStartBounds(c, n);
    RoofIsJump(c, n);
    hide WorstShare, Shed, CellStart, CellRoof, Jump, Barrier, BarrierAt;
    forall x | CellStart(c, n) < x <= Jump(c, CellStart(c, n))
      ensures !Barrier(c, x)
    {
      CellClear(c, n, x);
    }
  }

  lemma RoofBelowJump(c: Config, y: real)
    requires Sound(c) && 0.0 <= y && 0.0 < WorstShare(c) && c.probe(y.Floor) as real <= Shed(c, y)
    ensures CellStart(c, y.Floor) <= y && CellRoof(c, y.Floor) <= Jump(c, y)
  {
    hide WorstShare, Shed;
    CellStartBounds(c, y.Floor);
    JumpInCell(c, y);
    hide CellStart;
  }

  lemma TrapInCell(c: Config, y: real)
    requires Sound(c) && RisingProbe(c) && Probing(c) && Trap(c, y)
    ensures TrapCell(c, y.Floor)
  {
    hide WorstShare, Shed, CellStart, CellRoof, Rise, BarrierAt;
    var n := y.Floor;
    JumpLifts(c, y);
    assert !Barrier(c, Jump(c, y));
    BelowOne(c, Jump(c, y));
    BalancedThere(c, y);
    RoofBelowJump(c, y);
    hide Jump, Barrier;
    forall k: int | n < k && k as real <= CellRoof(c, n)
      ensures !BarrierAt(c, k)
    {
      IntegerBarrier(c, k);
      assert y < k as real <= Jump(c, y);
    }
  }

  /** At a trap the worst gradient takes at least the probe: just above it there is no barrier. */
  lemma BalancedThere(c: Config, y: real)
    requires Sound(c) && RisingProbe(c) && Probing(c) && Trap(c, y) && 0.0 < WorstShare(c)
    ensures c.probe(y.Floor) as real <= Shed(c, y)
  {
    hide WorstShare;
    JumpLifts(c, y);
    var p, next := c.probe(y.Floor) as real, (y.Floor + 1) as real;
    var t := Balance(c, p);
    hide Shed, Jump;
    ShedOrder(c, t, y);
    var x := Min((y + next) / 2.0, Min(t, Jump(c, y)));
    ShedOrder(c, x, t);
    assert y < x ==> x.Floor == y.Floor && !Barrier(c, x);
  }

  /** The proposal's RecoversAfterSpike, with good windows that recur forever, holds exactly if no
      integer cap in range starts a cell with a trap: a finite check of the configuration. */
  lemma RecoversIffNoTrapCell(c: Config)
    requires Sound(c) && RisingProbe(c) && Probing(c)
    ensures RecoversAfterSpike(c) <==> forall n: int :: !TrapCell(c, n)
    ensures forall n | TrapCell(c, n) :: c.minLimit <= n < c.maxLimit
  {
    hide Trap, TrapCell, RecoversAfterSpike;
    RecoversAfterSpikeIff(c);
    if n: int :| TrapCell(c, n) {
      CellHoldsTrap(c, n);
    } else {
      forall y: real
        ensures !Trap(c, y)
      {
        if Trap(c, y) { TrapInCell(c, y); }
      }
    }
    forall n | TrapCell(c, n)
      ensures c.minLimit <= n < c.maxLimit
    {
      CellInRange(c, n);
    }
  }

  lemma CellInRange(c: Config, n: int)
    requires Sound(c) && TrapCell(c, n)
    ensures c.minLimit <= n < c.maxLimit
  {
    MulNonNeg(c.smoothing, c.probe(n) as real);
  }

  // ---------- The default probe ----------

  lemma DefaultRises(c: Config)
    requires DefaultProbe(c)
    ensures RisingProbe(c) && Probing(c)
  {
    forall i, j | i <= j
      ensures c.probe(i) <= c.probe(j)
    {
      var root := DefaultSqrtQueueSize(j);
      assert root < DefaultSqrtQueueSize(i) ==> root * root < i;
    }
  }

  lemma RecoversIffDefaultProbe(c: Config)
    requires Sound(c) && DefaultProbe(c)
    ensures RecoversAfterSpike(c) <==> forall n: int :: !TrapCell(c, n)
  {
    DefaultRises(c);
    RecoversIffNoTrapCell(c);
  }

  // ---------- Constant probes ----------

  ghost predicate ConstantProbe(c: Config, p: int) { forall n :: c.probe(n) == p }

  /** Where slow windows of the worst gradient leave a cap that is probed by p. */
  function LowestCap(c: Config, p: int): real
    requires 1 <= c.longWindow && LeastQuotient(c) < 1.0
  {
    Max(c.minLimit as real, p as real / (1.0 - Max(0.5, LeastQuotient(c))))
  }

  lemma LowestCapBounds(c: Config, p: int)
    requires 1 <= c.longWindow && LeastQuotient(c) < 1.0
    ensures 0.0 < WorstShare(c)
    ensures c.minLimit as real <= LowestCap(c, p) && p as real <= Shed(c, LowestCap(c, p))
    ensures forall x | c.minLimit as real <= x && p as real <= Shed(c, x) :: LowestCap(c, p) <= x
  {
    hide LeastQuotient;
    var t := Balance(c, p as real);
    hide Shed;
    ShedOrder(c, t, c.minLimit as real);
    forall x | c.minLimit as real <= x && p as real <= Shed(c, x)
      ensures LowestCap(c, p) <= x
    {
      ShedOrder(c, x, t);
    }
  }

  lemma JumpByConstant(c: Config, p: int, y: real)
    requires ConstantProbe(c, p)
    ensures Jump(c, y) == y + c.smoothing * p as real
  {
  }

  /** With a constant probe p there is no trap exactly if the worst quotient is at least one, or if one
      good window lifts the lowest cap to the ceiling. */
  lemma ConstantTrapIff(c: Config, p: int)
    requires Sound(c) && 1 <= p && ConstantProbe(c, p) && LeastQuotient(c) < 1.0
    ensures (exists y: real :: Trap(c, y)) <==> LowestCap(c, p) + c.smoothing * p as real < c.maxLimit as real
  {
    hide LeastQuotient, WorstShare, Shed;
    var low := LowestCap(c, p);
    LowestCapBounds(c, p);
    hide LowestCap;
    JumpByConstant(c, p, low);
    if low + c.smoothing * p as real < c.maxLimit as real {
      forall x | low < x <= Jump(c, low)
        ensures !Barrier(c, x)
      {
        ShedOrder(c, low, x);
      }
      assert Trap(c, low);
    }
    if y: real :| Trap(c, y) {
      assert RisingProbe(c) && Probing(c);
      BalancedThere(c, y);
      JumpByConstant(c, p, y);
    }
  }

  /** With a constant probe the proposal's RecoversAfterSpike holds exactly if tolerance times the
      sample weight reaches one, or if the ceiling is within one good window of the lowest cap. */
  lemma RecoversIffConstantProbe(c: Config, p: int)
    requires Sound(c) && 1 <= p && ConstantProbe(c, p)
    ensures RecoversAfterSpike(c) <==>
      1.0 <= c.tolerance * SteadyStateFactor(c.longWindow)
      || c.maxLimit as real <= LowestCap(c, p) + c.smoothing * p as real
  {
    hide RecoversAfterSpike, Trap, LowestCap, SteadyStateFactor;
    assert RisingProbe(c) && Probing(c);
    RecoversAfterSpikeIff(c);
    if LeastQuotient(c) < 1.0 {
      ConstantTrapIff(c, p);
    } else {
      forall y: real
        ensures !Trap(c, y)
      {
        NoTrapAtOne(c, y);
      }
    }
  }

  /** If the worst gradient is one, every level is a barrier. */
  lemma NoTrapAtOne(c: Config, y: real)
    requires Sound(c) && Probing(c) && 1.0 <= LeastQuotient(c)
    ensures !Trap(c, y)
  {
    hide LeastQuotient, Shed;
    JumpLifts(c, y);
    ShedOrder(c, Jump(c, y), Jump(c, y));
    assert Barrier(c, Jump(c, y));
  }

  // ---------- A new limiter ----------

  /** The state the refuting runs start from is that of a new limiter at its floor after ten idle
      windows of latency one. */
  lemma IdleIsReached(c: Config)
    requires 1 <= c.longWindow && 0 < c.minLimit
    ensures Run(c, Initial(c.minLimit), Warming(1, 10)) == Idle(c)
  {
    WarmsUp(c, c.minLimit, 1, 0);
  }

  /** What the builder builds when nothing is set. */
  function BuilderDefaults(): Config { Config(20, 200, DefaultSqrtQueueSize, 0.2, 1.5, 600) }

  lemma RootsAtTwenty()
    ensures DefaultSqrtQueueSize(20) == 5 == DefaultSqrtQueueSize(21)
  {
    var root, next := DefaultSqrtQueueSize(20), DefaultSqrtQueueSize(21);
    assert 4 < root ==> 4 * 4 < 20;
    assert 5 < root ==> 5 * 5 < 20;
    assert 5 < next ==> 5 * 5 < 21;
    assert root <= 4 ==> root * root <= 16 by { if root <= 4 { SmallSquare(root); } }
    assert next <= 4 ==> next * next <= 16 by { if next <= 4 { SmallSquare(next); } }
  }

  lemma SmallSquare(root: int)
    requires 1 <= root <= 4
    ensures root * root <= 16
  {
  }

  /** The default configuration does not recover from good windows that only recur: its floor of 20 is
      a trap, from which one good window reaches 21 and slow ones lead back. */
  lemma DefaultsAreTrapped()
    ensures Sound(BuilderDefaults()) && DefaultProbe(BuilderDefaults())
    ensures TrapCell(BuilderDefaults(), 20) && !RecoversAfterSpike(BuilderDefaults())
    ensures Run(BuilderDefaults(), Initial(20), Warming(1, 10)) == Idle(BuilderDefaults())
  {
    var c := BuilderDefaults();
    RootsAtTwenty();
    IdleIsReached(c);
    hide DefaultSqrtQueueSize, RecoversAfterSpike, TrapCell;
    DefaultsCell(c);
    RecoversIffDefaultProbe(c);
  }

  lemma DefaultsCell(c: Config)
    requires c == BuilderDefaults() && c.probe(20) == 5 == c.probe(21)
    ensures TrapCell(c, 20)
  {
    assert LowestGradient(c) == 0.5;
    assert CellStart(c, 20) == 20.0;
    forall k: int | 20 < k && k as real <= CellRoof(c, 20)
      ensures !BarrierAt(c, k)
    {
      assert k == 21;
    }
  }
}
