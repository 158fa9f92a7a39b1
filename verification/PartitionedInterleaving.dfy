/** Every interleaving of the partitioned limiter's atomic steps (src/abstract_partitioned_limiter.cc):
    the burst branch, the saturated compare-and-swap branch, the release in two steps, and the
    bounded budget of sleeping threads. One access to one atomic is one step. */
module PartitionedInterleaving {
  import opened Counting

  type Tid = nat

  datatype Pc =
    | Idle
    | Gate(p: nat)                   // partition resolved, neither side of the gate read
    | SawInflight(p: nat, v: int)    // in-flight read, cap not yet
    | SawCap(p: nat, c: int)         // cap read, in-flight not yet
    | Burst(p: nat)                  // below the cap: about to add to the busy counter
    | Saturated(p: nat)              // at the cap: about to load the busy counter
    | SawBusy(p: nat, cur: int)      // about to load the quota
    | Swap(p: nat, cur: int)         // about to compare-and-swap the busy counter
    | Admitted(p: nat)               // busy counted, about to add to in-flight
    | Refused(p: nat)
    | Budget(p: nat, cur: int)       // in the loop that reserves a sleeping place
    | Sleeping(p: nat)
    | Releasing(p: nat)              // in-flight given back, busy not yet

  /** Bounds on every cap and quota ever stored, which partitions delay refusals, and the budget of
      sleepers. */
  datatype Config = Config(maxCap: int, maxQuota: seq<int>, delays: seq<bool>, budget: int)

  ghost predicate Sound(k: Config) {
    && 1 <= k.maxCap
    && (forall p | 0 <= p < |k.maxQuota| :: 1 <= k.maxQuota[p])
    && |k.delays| == |k.maxQuota|
    && 0 <= k.budget
  }

  /** The atomics, the guards callers hold per partition, and the threads. */
  datatype State = State(inflight: int, busy: seq<int>, cap: int, quota: seq<int>, delayed: int,
                         held: seq<int>, pc: map<Tid, Pc>)

  datatype Action =
    | Call(t: Tid, p: nat)
    | LoadInflight(t: Tid)
    | LoadCap(t: Tid)
    | AddBusy(t: Tid)
    | LoadBusy(t: Tid)
    | LoadQuota(t: Tid)
    | SwapBusy(t: Tid, spurious: bool)
    | AddInflight(t: Tid)
    | SkipDelay(t: Tid)
    | LoadDelayed(t: Tid)
    | SwapDelayed(t: Tid, spurious: bool)
    | Wake(t: Tid)
    | Complete(t: Tid, p: nat)
    | SubBusy(t: Tid)
    | StoreCap(c: int)
    | StoreQuota(p: nat, q: int)

  predicate Enabled(k: Config, s: State, a: Action) {
    match a
    case StoreCap(c) => c <= k.maxCap
    case StoreQuota(p, q) => p < |s.quota| && p < |k.maxQuota| && q <= k.maxQuota[p]
    case Call(t, p) => t in s.pc && s.pc[t].Idle? && p < |s.busy|
    case LoadInflight(t) => t in s.pc && (s.pc[t].Gate? || s.pc[t].SawCap?)
    case LoadCap(t) => t in s.pc && (s.pc[t].Gate? || s.pc[t].SawInflight?)
    case AddBusy(t) => t in s.pc && s.pc[t].Burst? && s.pc[t].p < |s.busy|
    case LoadBusy(t) => t in s.pc && s.pc[t].Saturated? && s.pc[t].p < |s.busy|
    case LoadQuota(t) => t in s.pc && s.pc[t].SawBusy? && s.pc[t].p < |s.quota|
    case SwapBusy(t, _) => t in s.pc && s.pc[t].Swap? && s.pc[t].p < |s.busy|
    case AddInflight(t) => t in s.pc && s.pc[t].Admitted? && s.pc[t].p < |s.held|
    case SkipDelay(t) => t in s.pc && s.pc[t].Refused? && s.pc[t].p < |k.delays| && !k.delays[s.pc[t].p]
    case LoadDelayed(t) => t in s.pc && s.pc[t].Refused? && s.pc[t].p < |k.delays| && k.delays[s.pc[t].p]
    case SwapDelayed(t, _) => t in s.pc && s.pc[t].Budget?
    case Wake(t) => t in s.pc && s.pc[t].Sleeping?
    case Complete(t, p) => t in s.pc && s.pc[t].Idle? && p < |s.held| && 0 < s.held[p]
    case SubBusy(t) => t in s.pc && s.pc[t].Releasing? && s.pc[t].p < |s.busy|
  }

  function Goto(s: State, t: Tid, x: Pc): State { s.(pc := s.pc[t := x]) }

  function GateResult(p: nat, inflight: int, cap: int): Pc {
    if inflight >= cap then Saturated(p) else Burst(p)
  }

  function Apply(k: Config, s: State, a: Action): State
    requires Enabled(k, s, a)
  {
    match a
    case StoreCap(c) => s.(cap := c)
    case StoreQuota(p, q) => s.(quota := s.quota[p := q])
    case Call(t, p) => Goto(s, t, Gate(p))
    case LoadInflight(t) =>
      if s.pc[t].Gate? then Goto(s, t, SawInflight(s.pc[t].p, s.inflight))
      else Goto(s, t, GateResult(s.pc[t].p, s.inflight, s.pc[t].c))
    case LoadCap(t) =>
      if s.pc[t].Gate? then Goto(s, t, SawCap(s.pc[t].p, s.cap))
      else Goto(s, t, GateResult(s.pc[t].p, s.pc[t].v, s.cap))
    case AddBusy(t) =>
      var p := s.pc[t].p;
      Goto(s, t, Admitted(p)).(busy := s.busy[p := s.busy[p] + 1])
    case LoadBusy(t) =>
      var p := s.pc[t].p;
      Goto(s, t, SawBusy(p, s.busy[p]))
    case LoadQuota(t) =>
      var (p, cur) := (s.pc[t].p, s.pc[t].cur);
      Goto(s, t, if cur >= s.quota[p] then Refused(p) else Swap(p, cur))
    case SwapBusy(t, spurious) =>
      var (p, cur) := (s.pc[t].p, s.pc[t].cur);
      if s.busy[p] == cur && !spurious then Goto(s, t, Admitted(p)).(busy := s.busy[p := cur + 1])
      else Goto(s, t, SawBusy(p, s.busy[p]))
    case AddInflight(t) =>
      var p := s.pc[t].p;
      Goto(s, t, Idle).(inflight := s.inflight + 1, held := s.held[p := s.held[p] + 1])
    case SkipDelay(t) => Goto(s, t, Idle)
    case LoadDelayed(t) => Goto(s, t, Budget(s.pc[t].p, s.delayed))
    case SwapDelayed(t, spurious) =>
      var (p, cur) := (s.pc[t].p, s.pc[t].cur);
      if cur >= k.budget then Goto(s, t, Idle)
      else if s.delayed == cur && !spurious then Goto(s, t, Sleeping(p)).(delayed := cur + 1)
      else Goto(s, t, Budget(p, s.delayed))
    case Wake(t) => Goto(s, t, Idle).(delayed := s.delayed - 1)
    case Complete(t, p) =>
      Goto(s, t, Releasing(p)).(inflight := s.inflight - 1, held := s.held[p := s.held[p] - 1])
    case SubBusy(t) =>
      var p := s.pc[t].p;
      Goto(s, t, Idle).(busy := s.busy[p := s.busy[p] - 1])
  }

  // ---------- Runs ----------

  predicate LegalRun(k: Config, s: State, actions: seq<Action>)
    decreases |actions|
  {
    actions == [] || (Enabled(k, s, actions[0]) && LegalRun(k, Apply(k, s, actions[0]), actions[1..]))
  }

  function Execute(k: Config, s: State, actions: seq<Action>): State
    requires LegalRun(k, s, actions)
    decreases |actions|
  {
    if actions == [] then s else Execute(k, Apply(k, s, actions[0]), actions[1..])
  }

  /** Nothing in flight, every thread idle, cap and quotas within their bounds. */
  ghost predicate Initial(k: Config, s: State) {
    && |s.busy| == |s.quota| == |s.held| == |k.maxQuota|
    && s.inflight == 0 && s.delayed == 0 && s.cap <= k.maxCap
    && (forall p | 0 <= p < |s.busy| :: s.busy[p] == 0 && s.held[p] == 0 && s.quota[p] <= k.maxQuota[p])
    && (forall t | t in s.pc :: s.pc[t].Idle?)
  }

  // ---------- Classes of threads ----------

  /** Busy counted but in-flight not: between the two steps of an acquire or of a release. */
  function Between(): Pc -> bool { (x: Pc) => x.Admitted? || x.Releasing? }

  function BetweenFor(p: int): Pc -> bool { (x: Pc) => (x.Admitted? || x.Releasing?) && x.p == p }

  /** Read an in-flight count below the highest cap and may still burst on the strength of it. */
  function Committed(maxCap: int): Pc -> bool { (x: Pc) => x.Burst? || (x.SawInflight? && x.v < maxCap) }

  function Asleep(): Pc -> bool { (x: Pc) => x.Sleeping? }

  // ---------- The inductive invariant ----------

  function Over(busy: seq<int>, quota: seq<int>): seq<int>
    requires |busy| == |quota|
  {
    seq(|busy|, i requires 0 <= i < |busy| => if busy[i] > quota[i] then busy[i] - quota[i] else 0)
  }

  /** How far the busy counters together run over the quotas. */
  function Excess(busy: seq<int>, quota: seq<int>): int
    requires |busy| == |quota|
  {
    Sum(Over(busy, quota))
  }

  ghost predicate Shape(k: Config, s: State) {
    && |s.busy| == |s.quota| == |s.held| == |k.maxQuota|
    && (forall p | 0 <= p < |s.quota| :: s.quota[p] <= k.maxQuota[p])
    && (forall p | 0 <= p < |s.held| :: 0 <= s.held[p])
    && s.cap <= k.maxCap
    && (forall t | t in s.pc :: PcShape(k, s.pc[t]))
  }

  ghost predicate PcShape(k: Config, x: Pc) {
    && (!x.Idle? ==> x.p < |k.maxQuota|)
    && (x.Swap? ==> x.cur < k.maxQuota[x.p])
    && (x.SawCap? ==> x.c <= k.maxCap)
  }

  /** The partition ledger: a busy counter is the guards held for that partition plus the threads
      between the two counters; in-flight is the guards held. */
  ghost predicate Ledger(s: State) {
    && |s.busy| == |s.held|
    && (forall p | 0 <= p < |s.busy| :: s.busy[p] == s.held[p] + Count(s.pc, BetweenFor(p)))
    && s.inflight == Sum(s.held)
    && Sum(s.busy) == s.inflight + Count(s.pc, Between())
  }

  /** The potential: the excess over the quotas plus the bursts already committed to. */
  ghost predicate Potential(k: Config, s: State)
    requires |s.busy| == |k.maxQuota|
  {
    var e, b, n := Excess(s.busy, k.maxQuota), Count(s.pc, Committed(k.maxCap)), |s.pc|;
    && e + b <= k.maxCap - 1 + n
    && (1 <= e ==> e + b <= k.maxCap - 2 + n)
    && (b == n ==> s.inflight <= k.maxCap - 1)
  }

  ghost predicate Rest(k: Config, s: State) {
    s.delayed == Count(s.pc, Asleep()) && s.delayed <= k.budget
  }

  ghost predicate Inv(k: Config, s: State) {
    Shape(k, s) && Ledger(s) && Potential(k, s) && Rest(k, s)
  }

  // ---------- Arithmetic of the excess ----------

  lemma ExcessUpdate(busy: seq<int>, quota: seq<int>, p: nat, x: int)
    requires |busy| == |quota| && p < |busy|
    ensures Excess(busy[p := x], quota) == Excess(busy, quota)
      - (if busy[p] > quota[p] then busy[p] - quota[p] else 0) + (if x > quota[p] then x - quota[p] else 0)
  {
    var over := Over(busy, quota);
    var y := if x > quota[p] then x - quota[p] else 0;
    assert Over(busy[p := x], quota) == over[p := y];
    SumUpdate(over, p, y);
  }

  lemma {:induction false} ExcessBounds(busy: seq<int>, quota: seq<int>)
    requires |busy| == |quota|
    requires forall p | 0 <= p < |busy| :: 0 <= busy[p] && 1 <= quota[p]
    ensures 0 <= Excess(busy, quota) <= Sum(busy)
    ensures 1 <= Excess(busy, quota) ==> Excess(busy, quota) <= Sum(busy) - 1
    ensures Sum(busy) <= Sum(quota) + Excess(busy, quota)
  {
    if busy != [] {
      ExcessBounds(busy[1..], quota[1..]);
      assert Over(busy, quota)[1..] == Over(busy[1..], quota[1..]);
    }
  }

  lemma BusyNonNeg(s: State)
    requires Ledger(s) && forall p | 0 <= p < |s.held| :: 0 <= s.held[p]
    ensures forall p | 0 <= p < |s.busy| :: 0 <= s.busy[p]
  {
  }

  // ---------- Each step keeps the invariant ----------

  lemma Moved(pc: map<Tid, Pc>, t: Tid, x: Pc, maxCap: int)
    requires t in pc
    ensures |pc[t := x]| == |pc|
    ensures Count(pc[t := x], Between()) == Count(pc, Between()) - Bit(Between()(pc[t])) + Bit(Between()(x))
    ensures Count(pc[t := x], Committed(maxCap))
      == Count(pc, Committed(maxCap)) - Bit(Committed(maxCap)(pc[t])) + Bit(Committed(maxCap)(x))
    ensures Count(pc[t := x], Asleep()) == Count(pc, Asleep()) - Bit(Asleep()(pc[t])) + Bit(Asleep()(x))
    ensures forall p ::
      Count(pc[t := x], BetweenFor(p)) == Count(pc, BetweenFor(p)) - Bit(BetweenFor(p)(pc[t])) + Bit(BetweenFor(p)(x))
  {
    assert pc[t := x].Keys == pc.Keys;
    assert |pc[t := x].Keys| == |pc.Keys|;
    CountUpdate(pc, t, x, Between());
    CountUpdate(pc, t, x, Committed(maxCap));
    CountUpdate(pc, t, x, Asleep());
    forall p
      ensures Count(pc[t := x], BetweenFor(p))
        == Count(pc, BetweenFor(p)) - Bit(BetweenFor(p)(pc[t])) + Bit(BetweenFor(p)(x))
    {
      CountUpdate(pc, t, x, BetweenFor(p));
    }
  }

  lemma ShapeStep(k: Config, s: State, a: Action)
    requires Sound(k) && Shape(k, s) && Enabled(k, s, a)
    ensures Shape(k, Apply(k, s, a))
  {
    if !a.StoreCap? && !a.StoreQuota? {
      var x := Apply(k, s, a).pc[a.t];
      assert PcShape(k, s.pc[a.t]);
      PcShapeStep(k, s, a);
      assert Apply(k, s, a).pc == s.pc[a.t := x];
    }
  }

  lemma PcShapeStep(k: Config, s: State, a: Action)
    requires Shape(k, s) && Enabled(k, s, a) && !a.StoreCap? && !a.StoreQuota?
    ensures PcShape(k, Apply(k, s, a).pc[a.t])
  {
    assert PcShape(k, s.pc[a.t]);
  }

  /** A thread's step that adds db to a busy counter and dh to the guards of the same partition
      keeps the ledger if the thread enters or leaves the gap between the two accordingly. */
  lemma LedgerMove(s: State, s': State, t: Tid, p: nat, db: int, dh: int)
    requires Ledger(s) && p < |s.busy| && t in s.pc && t in s'.pc
    requires s'.pc == s.pc[t := s'.pc[t]]
    requires s'.busy == s.busy[p := s.busy[p] + db] && s'.held == s.held[p := s.held[p] + dh]
    requires s'.inflight == s.inflight + dh
    requires db - dh == Bit(Between()(s'.pc[t])) - Bit(Between()(s.pc[t]))
    requires Between()(s.pc[t]) ==> s.pc[t].p == p
    requires Between()(s'.pc[t]) ==> s'.pc[t].p == p
    ensures Ledger(s')
  {
    hide Count;
    Moved(s.pc, t, s'.pc[t], 0);
    SumUpdate(s.busy, p, s.busy[p] + db);
    SumUpdate(s.held, p, s.held[p] + dh);
    forall q | 0 <= q < |s'.busy|
      ensures s'.busy[q] == s'.held[q] + Count(s'.pc, BetweenFor(q))
    {
      assert Count(s'.pc, BetweenFor(q))
        == Count(s.pc, BetweenFor(q)) - Bit(BetweenFor(q)(s.pc[t])) + Bit(BetweenFor(q)(s'.pc[t]));
    }
  }

  lemma LedgerStays(s: State, s': State, t: Tid)
    requires Ledger(s) && t in s.pc && t in s'.pc
    requires s'.pc == s.pc[t := s'.pc[t]]
    requires s'.busy == s.busy && s'.held == s.held && s'.inflight == s.inflight
    requires !Between()(s.pc[t]) && !Between()(s'.pc[t])
    ensures Ledger(s')
  {
    hide Count;
    Moved(s.pc, t, s'.pc[t], 0);
    forall q | 0 <= q < |s'.busy|
      ensures s'.busy[q] == s'.held[q] + Count(s'.pc, BetweenFor(q))
    {
      assert Count(s'.pc, BetweenFor(q))
        == Count(s.pc, BetweenFor(q)) - Bit(BetweenFor(q)(s.pc[t])) + Bit(BetweenFor(q)(s'.pc[t]));
    }
  }

  /** The two steps of an acquire and of a release. */
  predicate MovesCounters(a: Action) { a.AddBusy? || a.SwapBusy? || a.AddInflight? || a.Complete? || a.SubBusy? }

  lemma LedgerBusy(k: Config, s: State, a: Action)
    requires Ledger(s) && Enabled(k, s, a) && (a.AddBusy? || a.SwapBusy?)
    ensures Ledger(Apply(k, s, a))
  {
    hide Ledger;
    LedgerShape(s);
    var s' := Apply(k, s, a);
    if s'.pc[a.t].Admitted? {
      LedgerMove(s, s', a.t, s.pc[a.t].p, 1, 0);
    } else {
      LedgerStays(s, s', a.t);
    }
  }

  lemma LedgerOthers(k: Config, s: State, a: Action)
    requires Ledger(s) && Enabled(k, s, a) && !MovesCounters(a)
    ensures Ledger(Apply(k, s, a))
  {
    hide Ledger;
    if a.StoreCap? || a.StoreQuota? {
      LedgerSame(s, Apply(k, s, a));
    } else {
      LedgerStays(s, Apply(k, s, a), a.t);
    }
  }

  lemma LedgerAddInflight(k: Config, s: State, t: Tid)
    requires Ledger(s) && Enabled(k, s, AddInflight(t))
    ensures Ledger(Apply(k, s, AddInflight(t)))
  {
    hide Ledger;
    LedgerShape(s);
    LedgerMove(s, Apply(k, s, AddInflight(t)), t, s.pc[t].p, 0, 1);
  }

  lemma LedgerComplete(k: Config, s: State, t: Tid, p: nat)
    requires Ledger(s) && Enabled(k, s, Complete(t, p))
    ensures Ledger(Apply(k, s, Complete(t, p)))
  {
    hide Ledger;
    LedgerShape(s);
    LedgerMove(s, Apply(k, s, Complete(t, p)), t, p, 0, -1);
  }

  lemma LedgerSubBusy(k: Config, s: State, t: Tid)
    requires Ledger(s) && Enabled(k, s, SubBusy(t))
    ensures Ledger(Apply(k, s, SubBusy(t)))
  {
    hide Ledger;
    LedgerShape(s);
    LedgerMove(s, Apply(k, s, SubBusy(t)), t, s.pc[t].p, -1, 0);
  }

  lemma LedgerStep(k: Config, s: State, a: Action)
    requires Ledger(s) && Enabled(k, s, a)
    ensures Ledger(Apply(k, s, a))
  {
    hide Ledger, Apply, Enabled;
    match a
    case AddBusy(_) => LedgerBusy(k, s, a);
    case SwapBusy(_, _) => LedgerBusy(k, s, a);
    case AddInflight(t) => LedgerAddInflight(k, s, t);
    case Complete(t, p) => LedgerComplete(k, s, t, p);
    case SubBusy(t) => LedgerSubBusy(k, s, t);
    case _ => LedgerOthers(k, s, a);
  }

  lemma LedgerShape(s: State)
    requires Ledger(s)
    ensures |s.busy| == |s.held|
  {
  }

  lemma LedgerSame(s: State, s': State)
    requires Ledger(s) && s'.busy == s.busy && s'.held == s.held && s'.inflight == s.inflight && s'.pc == s.pc
    ensures Ledger(s')
  {
  }

  /** Below the highest cap the potential holds outright: the busy counters run ahead of in-flight
      only by threads between counters, and those are not the ones committed to a burst. */
  lemma PotentialBelowCap(k: Config, s: State)
    requires Sound(k) && Shape(k, s) && Ledger(s) && s.inflight <= k.maxCap - 1
    ensures Potential(k, s)
  {
    hide Count, Excess;
    BusyNonNeg(s);
    ExcessBounds(s.busy, k.maxQuota);
    CountDisjoint(s.pc, Between(), Committed(k.maxCap));
  }

  /** A step that neither raises the excess nor adds a commitment, at or above the highest cap. */
  lemma PotentialShrinks(k: Config, s: State, s': State, t: Tid)
    requires |s.busy| == |k.maxQuota| == |s'.busy| && Potential(k, s) && |s'.pc| == |s.pc|
    requires Excess(s'.busy, k.maxQuota) <= Excess(s.busy, k.maxQuota)
    requires Count(s'.pc, Committed(k.maxCap)) <= Count(s.pc, Committed(k.maxCap))
    requires s'.inflight <= s.inflight || (t in s'.pc && !Committed(k.maxCap)(s'.pc[t]))
    ensures Potential(k, s')
  {
    CountAtMostAll(s.pc, Committed(k.maxCap));
    CountAtMostAll(s'.pc, Committed(k.maxCap));
    hide Count, Excess;
    assert s'.inflight > s.inflight ==> Count(s'.pc, Committed(k.maxCap)) < |s'.pc|;
  }

  /** A committed burst happens: one commitment becomes at most one unit of excess. */
  lemma PotentialBurst(k: Config, s: State, a: Action)
    requires Sound(k) && Shape(k, s) && Ledger(s) && Potential(k, s) && a.AddBusy? && Enabled(k, s, a)
    requires k.maxCap <= s.inflight
    ensures Potential(k, Apply(k, s, a))
  {
    hide Count, Excess;
    var t, s' := a.t, Apply(k, s, a);
    var p := s.pc[t].p;
    Moved(s.pc, t, s'.pc[t], k.maxCap);
    ExcessUpdate(s.busy, k.maxQuota, p, s.busy[p] + 1);
    CountAtMostAll(s.pc, Committed(k.maxCap));
    BusyNonNeg(s);
    ExcessBounds(s.busy, k.maxQuota);
  }

  lemma PotentialStep(k: Config, s: State, a: Action)
    requires Sound(k) && Shape(k, s) && Ledger(s) && Potential(k, s) && Enabled(k, s, a)
    ensures |Apply(k, s, a).busy| == |k.maxQuota| && Potential(k, Apply(k, s, a))
  {
    hide Count, Excess, Ledger, Potential;
    var s' := Apply(k, s, a);
    ShapeStep(k, s, a);
    LedgerStep(k, s, a);
    if s'.inflight <= k.maxCap - 1 {
      PotentialBelowCap(k, s');
    } else if a.AddBusy? {
      PotentialBurst(k, s, a);
    } else if a.StoreCap? || a.StoreQuota? {
      PotentialSame(k, s, s');
    } else {
      PotentialMove(k, s, a);
    }
  }

  lemma PotentialSame(k: Config, s: State, s': State)
    requires |s.busy| == |k.maxQuota| && Potential(k, s)
    requires s'.busy == s.busy && s'.pc == s.pc && s'.inflight == s.inflight
    ensures Potential(k, s')
  {
    hide Count, Excess;
  }

  lemma PotentialMove(k: Config, s: State, a: Action)
    requires Sound(k) && Shape(k, s) && Potential(k, s) && Enabled(k, s, a)
    requires !a.AddBusy? && !a.StoreCap? && !a.StoreQuota? && Apply(k, s, a).inflight > k.maxCap - 1
    requires |Apply(k, s, a).busy| == |k.maxQuota|
    ensures Potential(k, Apply(k, s, a))
  {
    hide Count, Excess, Potential;
    var s' := Apply(k, s, a);
    Moved(s.pc, a.t, s'.pc[a.t], k.maxCap);
    ExcessStep(k, s, a);
    PotentialShrinks(k, s, s', a.t);
  }

  /** Only the burst branch can raise the excess: the compare-and-swap admits below the quota. */
  lemma ExcessStep(k: Config, s: State, a: Action)
    requires Shape(k, s) && Enabled(k, s, a) && !a.AddBusy?
    ensures |Apply(k, s, a).busy| == |k.maxQuota|
    ensures Excess(Apply(k, s, a).busy, k.maxQuota) <= Excess(s.busy, k.maxQuota)
  {
    hide Excess;
    match a
    case SwapBusy(t, _) => ExcessUpdate(s.busy, k.maxQuota, s.pc[t].p, s.pc[t].cur + 1);
    case SubBusy(t) => ExcessUpdate(s.busy, k.maxQuota, s.pc[t].p, s.busy[s.pc[t].p] - 1);
    case _ =>
  }

  lemma RestStep(k: Config, s: State, a: Action)
    requires Rest(k, s) && Enabled(k, s, a)
    ensures Rest(k, Apply(k, s, a))
  {
    hide Count;
    if !a.StoreCap? && !a.StoreQuota? {
      Moved(s.pc, a.t, Apply(k, s, a).pc[a.t], k.maxCap);
    }
  }

  lemma StepKeeps(k: Config, s: State, a: Action)
    requires Sound(k) && Inv(k, s) && Enabled(k, s, a)
    ensures Inv(k, Apply(k, s, a))
  {
    hide Shape, Ledger, Potential, Rest, Apply;
    ShapeStep(k, s, a);
    LedgerStep(k, s, a);
    PotentialStep(k, s, a);
    RestStep(k, s, a);
  }

  lemma InitialHolds(k: Config, s: State)
    requires Sound(k) && Initial(k, s)
    ensures Inv(k, s)
  {
    AllIdle(s.pc);
    hide Count;
    SumZero(s.held);
    SumZero(s.busy);
    PotentialBelowCap(k, s);
  }

  lemma AllIdle(pc: map<Tid, Pc>)
    requires forall t | t in pc :: pc[t].Idle?
    ensures Count(pc, Between()) == 0 && Count(pc, Asleep()) == 0
    ensures forall p :: Count(pc, BetweenFor(p)) == 0
  {
    CountNone(pc, Between());
    CountNone(pc, Asleep());
    forall p
      ensures Count(pc, BetweenFor(p)) == 0
    {
      CountNone(pc, BetweenFor(p));
    }
  }

  lemma {:induction false} SumZero(s: seq<int>)
    requires forall i | 0 <= i < |s| :: s[i] == 0
    ensures Sum(s) == 0
  {
    if s != [] {
      SumZero(s[1..]);
    }
  }

  lemma {:induction false} RunKeeps(k: Config, s: State, actions: seq<Action>)
    requires Sound(k) && Inv(k, s) && LegalRun(k, s, actions)
    ensures Inv(k, Execute(k, s, actions))
    ensures Execute(k, s, actions).pc.Keys == s.pc.Keys
    decreases |actions|
  {
    hide Inv, Apply, Enabled;
    if actions != [] {
      StepKeeps(k, s, actions[0]);
      SameThreads(k, s, actions[0]);
      RunKeeps(k, Apply(k, s, actions[0]), actions[1..]);
    }
  }

  lemma SameThreads(k: Config, s: State, a: Action)
    requires Enabled(k, s, a)
    ensures Apply(k, s, a).pc.Keys == s.pc.Keys
  {
    if !a.StoreCap? && !a.StoreQuota? {
      assert s.pc[a.t := Apply(k, s, a).pc[a.t]].Keys == s.pc.Keys;
    }
  }

  // ---------- What holds of every interleaving ----------

  /** The overshoot bound. With n threads, in-flight never exceeds the quotas together by more than
      maxCap - 2 + n, whatever the interleaving and however cap and quotas move below their bounds. */
  lemma OvershootBound(k: Config, s: State, actions: seq<Action>)
    requires Sound(k) && Initial(k, s) && 1 <= |s.pc| && LegalRun(k, s, actions)
    ensures Execute(k, s, actions).inflight <= Sum(k.maxQuota) + k.maxCap - 2 + |s.pc|
  {
    InitialHolds(k, s);
    RunKeeps(k, s, actions);
    var s' := Execute(k, s, actions);
    hide Execute, LegalRun, Count, Excess;
    BusyNonNeg(s');
    ExcessBounds(s'.busy, k.maxQuota);
    assert |s'.pc.Keys| == |s.pc.Keys|;
  }

  /** Calls one at a time still overshoot the cap by the quotas less one. */
  lemma SequentialOvershootBound(k: Config, s: State, actions: seq<Action>)
    requires Sound(k) && Initial(k, s) && |s.pc| == 1 && LegalRun(k, s, actions)
    ensures Execute(k, s, actions).inflight <= Sum(k.maxQuota) + k.maxCap - 1
  {
    OvershootBound(k, s, actions);
  }

  /** The partition ledger and the sleeping budget, after every interleaving. */
  lemma LedgerAndBudget(k: Config, s: State, actions: seq<Action>)
    requires Sound(k) && Initial(k, s) && LegalRun(k, s, actions)
    ensures var s' := Execute(k, s, actions);
      && s'.inflight == Sum(s'.held)
      && Sum(s'.busy) == s'.inflight + Count(s'.pc, Between())
      && |s'.busy| == |s'.held|
      && (forall p | 0 <= p < |s'.busy| :: s'.busy[p] == s'.held[p] + Count(s'.pc, BetweenFor(p)))
      && s'.delayed == Count(s'.pc, Asleep()) <= k.budget
  {
    InitialHolds(k, s);
    RunKeeps(k, s, actions);
  }

  /** Once every thread is idle again, each busy counter is exactly the guards held. */
  lemma QuiescentLedger(k: Config, s: State, actions: seq<Action>)
    requires Sound(k) && Initial(k, s) && LegalRun(k, s, actions)
    requires forall t | t in s.pc :: t in Execute(k, s, actions).pc && Execute(k, s, actions).pc[t].Idle?
    ensures var s' := Execute(k, s, actions);
      s'.busy == s'.held && s'.inflight == Sum(s'.busy) && s'.delayed == 0
  {
    hide Inv, Apply, Enabled, Initial;
    InitialHolds(k, s);
    RunKeeps(k, s, actions);
    QuiescentState(k, Execute(k, s, actions));
  }

  lemma QuiescentState(k: Config, s: State)
    requires Inv(k, s) && forall t | t in s.pc :: s.pc[t].Idle?
    ensures s.busy == s.held && s.inflight == Sum(s.busy) && s.delayed == 0
  {
    AllIdle(s.pc);
    hide Count, Potential;
  }
}
