/** Particular runs of the partitioned limiter: the overshoot bound is attained, one thread alone
    drives in-flight past the cap, and a refusal always has its two causes inside the same call. */
module PartitionedRuns {
  import opened Counting
  import opened PartitionedInterleaving

  // ---------- Reachability ----------

  ghost predicate Reach(k: Config, s: State, s': State) {
    exists actions :: LegalRun(k, s, actions) && Execute(k, s, actions) == s'
  }

  lemma ReachSelf(k: Config, s: State)
    ensures Reach(k, s, s)
  {
    assert LegalRun(k, s, []) && Execute(k, s, []) == s;
  }

  lemma ReachStep(k: Config, s: State, a: Action, s': State)
    requires Enabled(k, s, a) && Reach(k, Apply(k, s, a), s')
    ensures Reach(k, s, s')
  {
    var rest :| LegalRun(k, Apply(k, s, a), rest) && Execute(k, Apply(k, s, a), rest) == s';
    hide Apply, Enabled;
    var actions := [a] + rest;
    assert actions[1..] == rest;
    assert LegalRun(k, s, actions) && Execute(k, s, actions) == s';
  }

  lemma ReachTransitive(k: Config, s: State, m: State, s': State)
    requires Reach(k, s, m) && Reach(k, m, s')
    ensures Reach(k, s, s')
  {
    var first :| LegalRun(k, s, first) && Execute(k, s, first) == m;
    ReachAfter(k, s, first, s');
  }

  lemma {:induction false} ReachAfter(k: Config, s: State, first: seq<Action>, s': State)
    requires LegalRun(k, s, first) && Reach(k, Execute(k, s, first), s')
    ensures Reach(k, s, s')
    decreases |first|
  {
    hide Apply, Enabled, Reach;
    if first != [] {
      ReachAfter(k, Apply(k, s, first[0]), first[1..], s');
      ReachStep(k, s, first[0], s');
    }
  }

  // ---------- Calls that nobody interrupts ----------

  ghost predicate Tidy(k: Config, s: State) {
    |s.busy| == |s.quota| == |s.held| == |k.maxQuota|
  }

  /** One more admission to partition p. */
  function Granted(s: State, p: nat): State
    requires p < |s.busy| && p < |s.held|
  {
    s.(inflight := s.inflight + 1, busy := s.busy[p := s.busy[p] + 1], held := s.held[p := s.held[p] + 1])
  }

  /** A call that finds room under the cap is admitted whatever its partition already holds. */
  lemma SoloBurst(k: Config, s: State, t: Tid, p: nat)
    requires Tidy(k, s) && t in s.pc && s.pc[t].Idle? && p < |s.busy| && s.inflight < s.cap
    ensures Reach(k, s, Granted(s, p))
  {
    var s1 := Apply(k, s, Call(t, p));
    var s2 := Apply(k, s1, LoadInflight(t));
    var s3 := Apply(k, s2, LoadCap(t));
    var s4 := Apply(k, s3, AddBusy(t));
    var s5 := Apply(k, s4, AddInflight(t));
    assert s5.pc == s.pc;
    assert s5 == Granted(s, p);
    hide Reach, Granted;
    ReachSelf(k, s5);
    ReachStep(k, s4, AddInflight(t), s5);
    ReachStep(k, s3, AddBusy(t), s5);
    ReachStep(k, s2, LoadCap(t), s5);
    ReachStep(k, s1, LoadInflight(t), s5);
    ReachStep(k, s, Call(t, p), s5);
  }

  lemma SoloGate(k: Config, s: State, t: Tid, p: nat)
    requires Tidy(k, s) && t in s.pc && s.pc[t].Idle? && p < |s.busy| && s.cap <= s.inflight
    ensures Reach(k, s, Goto(s, t, Saturated(p)))
  {
    var s1 := Apply(k, s, Call(t, p));
    var s2 := Apply(k, s1, LoadInflight(t));
    var s3 := Apply(k, s2, LoadCap(t));
    assert s3 == Goto(s, t, Saturated(p));
    hide Reach;
    ReachSelf(k, s3);
    ReachStep(k, s2, LoadCap(t), s3);
    ReachStep(k, s1, LoadInflight(t), s3);
    ReachStep(k, s, Call(t, p), s3);
  }

  lemma SaturatedSwap(k: Config, s: State, t: Tid, p: nat)
    requires Tidy(k, s) && t in s.pc && s.pc[t] == Saturated(p) && p < |s.busy| && s.busy[p] < s.quota[p]
    ensures Reach(k, s, Goto(Granted(s, p), t, Idle))
  {
    var s1 := Apply(k, s, LoadBusy(t));
    var s2 := Apply(k, s1, LoadQuota(t));
    var s3 := Apply(k, s2, SwapBusy(t, false));
    var s4 := Apply(k, s3, AddInflight(t));
    assert s4 == Goto(Granted(s, p), t, Idle);
    hide Reach;
    ReachSelf(k, s4);
    ReachStep(k, s3, AddInflight(t), s4);
    ReachStep(k, s2, SwapBusy(t, false), s4);
    ReachStep(k, s1, LoadQuota(t), s4);
    ReachStep(k, s, LoadBusy(t), s4);
  }

  /** A call that finds the cap reached is admitted if its partition is below its quota. */
  lemma SoloSwap(k: Config, s: State, t: Tid, p: nat)
    requires Tidy(k, s) && t in s.pc && s.pc[t].Idle? && p < |s.busy|
    requires s.cap <= s.inflight && s.busy[p] < s.quota[p]
    ensures Reach(k, s, Granted(s, p))
  {
    hide Reach;
    var m := Goto(s, t, Saturated(p));
    SoloGate(k, s, t, p);
    SaturatedSwap(k, m, t, p);
    assert Goto(Granted(m, p), t, Idle).pc == s.pc;
    assert Goto(Granted(m, p), t, Idle) == Granted(s, p);
    ReachTransitive(k, s, m, Granted(s, p));
  }

  /** One guard of partition p given back. */
  function GivenBack(s: State, p: nat): State
    requires p < |s.busy| && p < |s.held|
  {
    s.(inflight := s.inflight - 1, busy := s.busy[p := s.busy[p] - 1], held := s.held[p := s.held[p] - 1])
  }

  /** An uninterrupted completion gives the slot back in both counters. */
  lemma SoloRelease(k: Config, s: State, t: Tid, p: nat)
    requires Tidy(k, s) && t in s.pc && s.pc[t].Idle? && p < |s.busy| && 0 < s.held[p]
    ensures Reach(k, s, GivenBack(s, p))
  {
    var s1 := Apply(k, s, Complete(t, p));
    var s2 := Apply(k, s1, SubBusy(t));
    assert s2.pc == s.pc;
    assert s2 == GivenBack(s, p);
    hide Reach, GivenBack;
    ReachSelf(k, s2);
    ReachStep(k, s1, SubBusy(t), s2);
    ReachStep(k, s, Complete(t, p), s2);
  }

  /** A saturated call whose partition has reached its quota is refused. */
  lemma SoloRefused(k: Config, s: State, t: Tid, p: nat)
    requires Tidy(k, s) && t in s.pc && s.pc[t].Idle? && p < |s.busy|
    requires s.cap <= s.inflight && s.quota[p] <= s.busy[p]
    ensures Reach(k, s, Goto(s, t, Refused(p)))
  {
    SoloGate(k, s, t, p);
    var m := Goto(s, t, Saturated(p));
    var s1 := Apply(k, m, LoadBusy(t));
    var s2 := Apply(k, s1, LoadQuota(t));
    assert s2 == Goto(s, t, Refused(p));
    hide Reach;
    ReachSelf(k, s2);
    ReachStep(k, s1, LoadQuota(t), s2);
    ReachStep(k, m, LoadBusy(t), s2);
    ReachTransitive(k, s, m, s2);
  }

  /** A thread that sleeps on its refusal. */
  function Dozing(s: State, t: Tid, p: nat): State { Goto(s, t, Sleeping(p)).(delayed := s.delayed + 1) }

  /** A refused call with a delay and room in the budget sleeps, counted, and leaves everything as it
      was; without either it leaves at once. */
  lemma SoloBackoff(k: Config, s: State, t: Tid, p: nat)
    requires t in s.pc && s.pc[t].Idle? && p < |k.delays|
    ensures Reach(k, Goto(s, t, Refused(p)), s)
    ensures k.delays[p] && s.delayed < k.budget ==>
      Reach(k, Goto(s, t, Refused(p)), Dozing(s, t, p)) && Reach(k, Dozing(s, t, p), s)
  {
    var r := Goto(s, t, Refused(p));
    assert Goto(r, t, Idle) == s;
    if !k.delays[p] {
      ReachSelf(k, s);
      ReachStep(k, r, SkipDelay(t), s);
    } else {
      var b := Apply(k, r, LoadDelayed(t));
      if s.delayed < k.budget {
        var d := Dozing(s, t, p);
        assert Apply(k, b, SwapDelayed(t, false)) == d;
        assert Apply(k, d, Wake(t)) == s;
        ReachSelf(k, s);
        ReachSelf(k, d);
        hide Reach, Dozing;
        ReachStep(k, d, Wake(t), s);
        ReachStep(k, b, SwapDelayed(t, false), d);
        ReachStep(k, r, LoadDelayed(t), d);
        ReachTransitive(k, r, d, s);
      } else {
        assert Apply(k, b, SwapDelayed(t, false)) == s;
        ReachSelf(k, s);
        hide Reach;
        ReachStep(k, b, SwapDelayed(t, false), s);
        ReachStep(k, r, LoadDelayed(t), s);
      }
    }
  }

  /** In every run a refused thread leaves without sleeping only if its partition has no delay or the
      budget was used up when it looked; what it looks at is the live count, and it sleeps only by
      raising that count. */
  lemma BackoffStep(k: Config, s: State, a: Action)
    requires Enabled(k, s, a) && !a.StoreCap? && !a.StoreQuota? && (s.pc[a.t].Refused? || s.pc[a.t].Budget?)
    ensures var (x, y) := (s.pc[a.t], Apply(k, s, a).pc[a.t]);
      && (y.Idle? && x.Refused? ==> 0 <= x.p < |k.delays| && !k.delays[x.p])
      && (y.Idle? && x.Budget? ==> k.budget <= x.cur)
      && (y.Budget? ==> y.cur == s.delayed)
      && (y.Sleeping? ==> x.Budget? && x.cur == s.delayed < k.budget)
      && Apply(k, s, a).delayed == s.delayed + (if y.Sleeping? then 1 else 0)
      && (y.Idle? || y.Budget? || y.Sleeping?)
  {
  }

  // ---------- The bound is attained ----------

  /** n threads; those from `from` up to `to` are committed to a burst on u, the others idle. */
  function Crew(n: nat, from: nat, to: nat, u: nat): map<Tid, Pc> {
    map t: Tid | t < n :: Role(t, from, to, u)
  }

  function Role(t: Tid, from: nat, to: nat, u: nat): Pc { if from <= t < to then Burst(u) else Idle }

  lemma {:induction false} CrewSize(n: nat, from: nat, to: nat, u: nat)
    ensures |Crew(n, from, to, u)| == n
  {
    if n > 0 {
      CrewSize(n - 1, from, to, u);
      assert Crew(n, from, to, u).Keys == Crew(n - 1, from, to, u).Keys + {n - 1};
      assert |Crew(n, from, to, u).Keys| == |Crew(n - 1, from, to, u).Keys| + 1;
    } else {
      assert Crew(0, from, to, u) == map[];
    }
  }

  lemma OneJoins(n: nat, i: nat, u: nat)
    requires i < n
    ensures Crew(n, 0, i + 1, u) == Crew(n, 0, i, u)[i := Burst(u)]
    ensures Crew(n, i + 1, n, u) == Crew(n, i, n, u)[i := Idle]
    ensures i in Crew(n, 0, i, u) && Crew(n, 0, i, u)[i] == Idle
    ensures i in Crew(n, i, n, u) && Crew(n, i, n, u)[i] == Burst(u)
  {
  }

  /** Guards held and nothing between counters; cap and quotas at their bounds. */
  function Holding(k: Config, held: seq<int>, pc: map<Tid, Pc>): State {
    State(Sum(held), held, k.maxCap, k.maxQuota, 0, held, pc)
  }

  function With(held: seq<int>, u: nat, x: int): seq<int>
    requires u < |held|
  {
    held[u := held[u] + x]
  }

  /** One thread bursts x times on u, as long as in-flight starts below the cap each time. */
  lemma {:induction false} BurstAlone(k: Config, held: seq<int>, pc: map<Tid, Pc>, u: nat, x: nat)
    requires |held| == |k.maxQuota| && u < |held| && 0 in pc && pc[0].Idle?
    requires Sum(held) + x <= k.maxCap
    ensures Reach(k, Holding(k, held, pc), Holding(k, With(held, u, x), pc))
    decreases x
  {
    var s := Holding(k, held, pc);
    if x == 0 {
      assert With(held, u, 0) == held;
      ReachSelf(k, s);
    } else {
      SoloBurst(k, s, 0, u);
      SumUpdate(held, u, held[u] + 1);
      BurstAlone(k, With(held, u, 1), pc, u, x - 1);
      assert With(With(held, u, 1), u, x - 1) == With(held, u, x);
      ReachTransitive(k, s, Holding(k, With(held, u, 1), pc), Holding(k, With(held, u, x), pc));
    }
  }

  /** With one slot left, every thread from `i` on reads the same in-flight count and commits. */
  lemma {:induction false} AllCommit(k: Config, held: seq<int>, u: nat, n: nat, i: nat)
    requires |held| == |k.maxQuota| && u < |held| && i <= n && Sum(held) < k.maxCap
    ensures Reach(k, Holding(k, held, Crew(n, 0, i, u)), Holding(k, held, Crew(n, 0, n, u)))
    decreases n - i
  {
    var s, last := Holding(k, held, Crew(n, 0, i, u)), Holding(k, held, Crew(n, 0, n, u));
    if i == n {
      ReachSelf(k, s);
    } else {
      OneJoins(n, i, u);
      hide Crew, Reach, Holding;
      OneCommit(k, held, Crew(n, 0, i, u), u, i);
      AllCommit(k, held, u, n, i + 1);
      ReachTransitive(k, s, Holding(k, held, Crew(n, 0, i + 1, u)), last);
    }
  }

  lemma OneCommit(k: Config, held: seq<int>, pc: map<Tid, Pc>, u: nat, t: Tid)
    requires |held| == |k.maxQuota| && u < |held| && t in pc && pc[t] == Idle && Sum(held) < k.maxCap
    ensures Reach(k, Holding(k, held, pc), Holding(k, held, pc[t := Burst(u)]))
  {
    var s := Holding(k, held, pc);
    var s1 := Apply(k, s, Call(t, u));
    var s2 := Apply(k, s1, LoadInflight(t));
    var s3 := Apply(k, s2, LoadCap(t));
    assert s3 == Holding(k, held, pc[t := Burst(u)]);
    hide Reach;
    ReachSelf(k, s3);
    ReachStep(k, s2, LoadCap(t), s3);
    ReachStep(k, s1, LoadInflight(t), s3);
    ReachStep(k, s, Call(t, u), s3);
  }

  /** Committed threads from `i` on burst one after another, past the cap. */
  lemma {:induction false} AllBurst(k: Config, held: seq<int>, u: nat, n: nat, i: nat)
    requires |held| == |k.maxQuota| && u < |held| && i <= n
    ensures Reach(k, Holding(k, held, Crew(n, i, n, u)), Holding(k, With(held, u, n - i), Crew(n, n, n, u)))
    decreases n - i
  {
    var s, last := Holding(k, held, Crew(n, i, n, u)), Holding(k, With(held, u, n - i), Crew(n, n, n, u));
    if i == n {
      assert With(held, u, 0) == held;
      ReachSelf(k, s);
    } else {
      var more := With(held, u, 1);
      OneJoins(n, i, u);
      assert With(more, u, n - (i + 1)) == With(held, u, n - i);
      hide Crew, Reach, Holding, With;
      OneBurst(k, held, Crew(n, i, n, u), u, i);
      AllBurst(k, more, u, n, i + 1);
      ReachTransitive(k, s, Holding(k, more, Crew(n, i + 1, n, u)), last);
    }
  }

  lemma OneBurst(k: Config, held: seq<int>, pc: map<Tid, Pc>, u: nat, t: Tid)
    requires |held| == |k.maxQuota| && u < |held| && t in pc && pc[t] == Burst(u)
    ensures Reach(k, Holding(k, held, pc), Holding(k, With(held, u, 1), pc[t := Idle]))
  {
    var s := Holding(k, held, pc);
    var s1 := Apply(k, s, AddBusy(t));
    var s2 := Apply(k, s1, AddInflight(t));
    SumUpdate(held, u, held[u] + 1);
    assert s2 == Holding(k, With(held, u, 1), pc[t := Idle]);
    hide Reach;
    ReachSelf(k, s2);
    ReachStep(k, s1, AddInflight(t), s2);
    ReachStep(k, s, AddBusy(t), s2);
  }

  /** At or above the cap, partitions below their quota can be filled up to it. */
  lemma {:induction false} FillUp(k: Config, held: seq<int>, goal: seq<int>, pc: map<Tid, Pc>)
    requires |held| == |k.maxQuota| == |goal| && 0 in pc && pc[0].Idle? && k.maxCap <= Sum(held)
    requires forall p | 0 <= p < |held| :: held[p] <= goal[p] && (held[p] < goal[p] ==> goal[p] <= k.maxQuota[p])
    ensures Reach(k, Holding(k, held, pc), Holding(k, goal, pc))
    decreases Sum(goal) - Sum(held)
  {
    var s := Holding(k, held, pc);
    if held == goal {
      ReachSelf(k, s);
    } else {
      var p: nat :| p < |held| && held[p] != goal[p];
      SoloSwap(k, s, 0, p);
      var more := With(held, p, 1);
      SumUpdate(held, p, held[p] + 1);
      SumAtMost(more, goal);
      FillUp(k, more, goal, pc);
      ReachTransitive(k, s, Holding(k, more, pc), Holding(k, goal, pc));
    }
  }

  function Zeros(n: nat): seq<int> { seq(n, _ => 0) }

  /** Fill to one below the cap, and let every thread commit to a burst on u. */
  lemma AllPoised(k: Config, n: nat, u: nat)
    requires Sound(k) && 1 <= n && u < |k.maxQuota|
    ensures var zero := Zeros(|k.maxQuota|);
      Reach(k, Holding(k, zero, Crew(n, n, n, u)), Holding(k, With(zero, u, k.maxCap - 1), Crew(n, 0, n, u)))
  {
    var idle, zero := Crew(n, n, n, u), Zeros(|k.maxQuota|);
    SumZero(zero);
    SumUpdate(zero, u, k.maxCap - 1);
    assert Crew(n, 0, 0, u) == idle && idle[0].Idle?;
    hide Crew, Reach, Holding;
    BurstAlone(k, zero, idle, u, k.maxCap - 1);
    var one := With(zero, u, k.maxCap - 1);
    AllCommit(k, one, u, n, 0);
    ReachTransitive(k, Holding(k, zero, idle), Holding(k, one, idle), Holding(k, one, Crew(n, 0, n, u)));
  }

  /** Let them burst, and fill the other partitions through the saturated branch. */
  lemma AllOver(k: Config, n: nat, u: nat)
    requires Sound(k) && 1 <= n && u < |k.maxQuota| && k.maxQuota[u] == 1
    ensures Reach(k, Holding(k, With(Zeros(|k.maxQuota|), u, k.maxCap - 1), Crew(n, 0, n, u)),
                     Holding(k, k.maxQuota[u := k.maxCap - 1 + n], Crew(n, n, n, u)))
  {
    var idle, zero := Crew(n, n, n, u), Zeros(|k.maxQuota|);
    SumZero(zero);
    var one, two := With(zero, u, k.maxCap - 1), With(zero, u, k.maxCap - 1 + n);
    var goal := k.maxQuota[u := k.maxCap - 1 + n];
    SumUpdate(zero, u, k.maxCap - 1 + n);
    assert idle[0].Idle?;
    assert With(one, u, n) == two;
    hide Crew, Reach, Holding;
    AllBurst(k, one, u, n, 0);
    FillUp(k, two, goal, idle);
    ReachTransitive(k, Holding(k, one, Crew(n, 0, n, u)), Holding(k, two, idle), Holding(k, goal, idle));
  }

  /** The overshoot bound is tight for every number of threads: with a partition of quota one (the
      unknown partition always is), some interleaving reaches it. */
  lemma OvershootAttained(k: Config, n: nat, u: nat)
    requires Sound(k) && 1 <= n && u < |k.maxQuota| && k.maxQuota[u] == 1
    ensures exists s, s' ::
      && Initial(k, s) && |s.pc| == n && s.cap == k.maxCap && Reach(k, s, s')
      && s'.cap == k.maxCap && s'.inflight == Sum(k.maxQuota) + k.maxCap - 2 + n
  {
    var idle, zero := Crew(n, n, n, u), Zeros(|k.maxQuota|);
    AllPoised(k, n, u);
    AllOver(k, n, u);
    CrewSize(n, n, n, u);
    SumZero(zero);
    SumUpdate(k.maxQuota, u, k.maxCap - 1 + n);
    hide Crew, Sum, Reach;
    var goal := k.maxQuota[u := k.maxCap - 1 + n];
    ReachTransitive(k, Holding(k, zero, idle), Holding(k, With(zero, u, k.maxCap - 1), Crew(n, 0, n, u)),
                    Holding(k, goal, idle));
    assert Initial(k, Holding(k, zero, idle));
    assert Holding(k, goal, idle).inflight == Sum(k.maxQuota) + k.maxCap - 2 + n;
  }

  /** "In-flight never exceeds the cap" is false of every limiter with a second partition, even with
      a single thread. */
  lemma CapIsOvershotByOneThread(k: Config, u: nat)
    requires Sound(k) && 2 <= |k.maxQuota| && u < |k.maxQuota| && k.maxQuota[u] == 1
    ensures exists s, s' ::
      Initial(k, s) && |s.pc| == 1 && Reach(k, s, s') && s'.cap == k.maxCap && s'.cap < s'.inflight
  {
    OvershootAttained(k, 1, u);
    var v := if u == 0 then 1 else 0;
    var rest := k.maxQuota[u := 0];
    SumUpdate(k.maxQuota, u, 0);
    SumAtLeast(rest, v);
  }

  /** No run of n threads puts more in flight than the cap. */
  ghost predicate CapKept(k: Config, n: nat) {
    forall s, s' | Initial(k, s) && |s.pc| == n && Reach(k, s, s') :: s'.inflight <= k.maxCap
  }

  /** "In-flight never exceeds the cap" holds of a limiter with a partition of quota one, as the
      unknown partition always has, exactly when that is its only partition and one thread calls. */
  lemma CapIsKeptIff(k: Config, n: nat, u: nat)
    requires Sound(k) && 1 <= n && u < |k.maxQuota| && k.maxQuota[u] == 1
    ensures CapKept(k, n) <==> |k.maxQuota| == 1 && n == 1
  {
    SmallSum(k.maxQuota, u, n);
    hide Reach, Initial, Sum;
    if |k.maxQuota| == 1 && n == 1 {
      forall s, s' | Initial(k, s) && |s.pc| == n && Reach(k, s, s')
        ensures s'.inflight <= k.maxCap
      {
        ReachBound(k, s, s');
      }
    } else {
      OvershootAttained(k, n, u);
    }
  }

  lemma ReachBound(k: Config, s: State, s': State)
    requires Sound(k) && Initial(k, s) && 1 <= |s.pc| && Reach(k, s, s')
    ensures s'.inflight <= Sum(k.maxQuota) + k.maxCap - 2 + |s.pc|
  {
    var actions :| LegalRun(k, s, actions) && Execute(k, s, actions) == s';
    OvershootBound(k, s, actions);
  }

  lemma SmallSum(quota: seq<int>, u: nat, n: nat)
    requires 1 <= n && u < |quota| && quota[u] == 1 && forall p | 0 <= p < |quota| :: 1 <= quota[p]
    ensures Sum(quota) + n <= 2 <==> |quota| == 1 && n == 1
  {
    var rest := quota[u := 0];
    SumUpdate(quota, u, 0);
    SumNonNeg(rest);
    if |quota| == 1 {
      assert quota == [1] && quota[1..] == [];
    } else {
      SumAtLeast(rest, if u == 0 then 1 else 0);
    }
  }

  // ---------- A refusal has its two causes inside the same call ----------

  /** The states of a run, one more than its actions. */
  ghost predicate Behaviour(k: Config, states: seq<State>, actions: seq<Action>) {
    && |states| == |actions| + 1
    && Shape(k, states[0])
    && forall i | 0 <= i < |actions| ::
      Enabled(k, states[i], actions[i]) && states[i + 1] == Apply(k, states[i], actions[i])
  }

  ghost predicate InCall(x: Pc, p: nat) { !x.Idle? && !x.Releasing? && x.p == p }

  /** Thread t works on one and the same call, for partition p, from state i to state n. */
  ghost predicate SameCall(states: seq<State>, i: nat, n: nat, t: Tid, p: nat) {
    n < |states| && forall m | i <= m <= n :: t in states[m].pc && InCall(states[m].pc[t], p)
  }

  /** During its call so far the thread was at a moment when in-flight, the cap, the busy counter of
      its partition or that partition's quota had the value v. */
  ghost predicate SawCount(states: seq<State>, n: nat, t: Tid, p: nat, v: int) {
    exists i | 0 <= i <= n :: SameCall(states, i, n, t, p) && states[i].inflight == v
  }

  ghost predicate SawCapValue(states: seq<State>, n: nat, t: Tid, p: nat, v: int) {
    exists i | 0 <= i <= n :: SameCall(states, i, n, t, p) && states[i].cap == v
  }

  ghost predicate SawBusyCount(states: seq<State>, n: nat, t: Tid, p: nat, v: int) {
    exists i | 0 <= i <= n :: SameCall(states, i, n, t, p) && p < |states[i].busy| && states[i].busy[p] == v
  }

  ghost predicate SawQuotaValue(states: seq<State>, n: nat, t: Tid, p: nat, v: int) {
    exists i | 0 <= i <= n :: SameCall(states, i, n, t, p) && p < |states[i].quota| && states[i].quota[p] == v
  }

  /** A cap and an in-flight count, each current at some moment of the call, with the count at or
      above the cap; and the same for the partition's quota and busy counter. */
  ghost predicate CapMet(states: seq<State>, n: nat, t: Tid, p: nat) {
    exists v, c :: c <= v && SawCount(states, n, t, p, v) && SawCapValue(states, n, t, p, c)
  }

  ghost predicate QuotaMet(states: seq<State>, n: nat, t: Tid, p: nat) {
    exists v, q :: q <= v && SawBusyCount(states, n, t, p, v) && SawQuotaValue(states, n, t, p, q)
  }

  /** What a thread at point x of its code, after n steps, has seen during its current call. */
  ghost predicate Told(states: seq<State>, n: nat, t: Tid, x: Pc) {
    match x
    case SawInflight(p, v) => SawCount(states, n, t, p, v)
    case SawCap(p, c) => SawCapValue(states, n, t, p, c)
    case Saturated(p) => CapMet(states, n, t, p)
    case SawBusy(p, cur) => CapMet(states, n, t, p) && SawBusyCount(states, n, t, p, cur)
    case Swap(p, _) => CapMet(states, n, t, p)
    case Refused(p) => CapMet(states, n, t, p) && QuotaMet(states, n, t, p)
    case Budget(p, _) => CapMet(states, n, t, p) && QuotaMet(states, n, t, p)
    case Sleeping(p) => CapMet(states, n, t, p) && QuotaMet(states, n, t, p)
    case _ => true
  }

  ghost predicate Witnessed(states: seq<State>, n: nat, t: Tid) {
    n < |states| && t in states[n].pc && Told(states, n, t, states[n].pc[t])
  }

  /** What was seen stays seen while the call goes on. */
  lemma Extend(states: seq<State>, n: nat, t: Tid, p: nat)
    requires n + 1 < |states| && t in states[n + 1].pc && InCall(states[n + 1].pc[t], p)
    ensures forall v :: SawCount(states, n, t, p, v) ==> SawCount(states, n + 1, t, p, v)
    ensures forall v :: SawCapValue(states, n, t, p, v) ==> SawCapValue(states, n + 1, t, p, v)
    ensures forall v :: SawBusyCount(states, n, t, p, v) ==> SawBusyCount(states, n + 1, t, p, v)
    ensures forall v :: SawQuotaValue(states, n, t, p, v) ==> SawQuotaValue(states, n + 1, t, p, v)
  {
    assert forall i | 0 <= i <= n && SameCall(states, i, n, t, p) :: SameCall(states, i, n + 1, t, p);
  }

  lemma ExtendMet(states: seq<State>, n: nat, t: Tid, p: nat)
    requires n + 1 < |states| && t in states[n + 1].pc && InCall(states[n + 1].pc[t], p)
    ensures CapMet(states, n, t, p) ==> CapMet(states, n + 1, t, p)
    ensures QuotaMet(states, n, t, p) ==> QuotaMet(states, n + 1, t, p)
  {
    hide SawCount, SawCapValue, SawBusyCount, SawQuotaValue;
    Extend(states, n, t, p);
  }

  /** The moment itself is one of the call's moments. */
  lemma SeesNow(states: seq<State>, n: nat, t: Tid, p: nat)
    requires n < |states| && t in states[n].pc && InCall(states[n].pc[t], p)
    ensures SawCount(states, n, t, p, states[n].inflight) && SawCapValue(states, n, t, p, states[n].cap)
    ensures p < |states[n].busy| ==> SawBusyCount(states, n, t, p, states[n].busy[p])
    ensures p < |states[n].quota| ==> SawQuotaValue(states, n, t, p, states[n].quota[p])
  {
    assert SameCall(states, n, n, t, p);
  }

  lemma {:induction false} SameShape(k: Config, states: seq<State>, actions: seq<Action>, n: nat)
    requires Behaviour(k, states, actions) && n < |states|
    ensures |states[n].busy| == |states[n].quota| == |k.maxQuota|
    ensures states[n].pc.Keys == states[0].pc.Keys
  {
    if 0 < n {
      SameShape(k, states, actions, n - 1);
      SameThreads(k, states[n - 1], actions[n - 1]);
      assert states[n] == Apply(k, states[n - 1], actions[n - 1]);
    }
  }

  predicate OfThread(a: Action, t: Tid) { !a.StoreCap? && !a.StoreQuota? && a.t == t }

  lemma {:induction false} AlwaysWitnessed(k: Config, states: seq<State>, actions: seq<Action>, n: nat, t: Tid)
    requires Behaviour(k, states, actions) && n < |states|
    requires t in states[0].pc && states[0].pc[t].Idle?
    ensures Witnessed(states, n, t)
  {
    hide Told, Apply, Enabled;
    if n == 0 {
      ToldNothing(states, 0, t, states[0].pc[t]);
    } else {
      AlwaysWitnessed(k, states, actions, n - 1, t);
      if OfThread(actions[n - 1], t) {
        WitnessStep(k, states, actions, n - 1);
      } else {
        WitnessStays(k, states, actions, n - 1, t);
      }
    }
  }

  lemma WitnessStays(k: Config, states: seq<State>, actions: seq<Action>, n: nat, t: Tid)
    requires Behaviour(k, states, actions) && n < |actions| && !OfThread(actions[n], t)
    requires Witnessed(states, n, t)
    ensures Witnessed(states, n + 1, t)
  {
    assert states[n + 1] == Apply(k, states[n], actions[n]);
    StaysPut(k, states[n], actions[n], t);
    hide Told, Behaviour, Apply, Enabled;
    var x := states[n].pc[t];
    if !x.Idle? && !x.Releasing? {
      ToldStill(states, n, t, x, x.p);
    } else {
      ToldNothing(states, n + 1, t, x);
    }
  }

  lemma ToldNothing(states: seq<State>, n: nat, t: Tid, x: Pc)
    requires x.Idle? || x.Releasing?
    ensures Told(states, n, t, x)
  {
  }

  /** What was told stays true while the call goes on. */
  lemma ToldStill(states: seq<State>, n: nat, t: Tid, x: Pc, p: nat)
    requires Told(states, n, t, x) && InCall(x, p)
    requires n + 1 < |states| && t in states[n + 1].pc && InCall(states[n + 1].pc[t], p)
    ensures Told(states, n + 1, t, x)
  {
    Extend(states, n, t, p);
    ExtendMet(states, n, t, p);
    hide SawCount, SawCapValue, SawBusyCount, SawQuotaValue, CapMet, QuotaMet;
  }

  lemma StaysPut(k: Config, s: State, a: Action, t: Tid)
    requires Enabled(k, s, a) && t in s.pc && !OfThread(a, t)
    ensures t in Apply(k, s, a).pc && Apply(k, s, a).pc[t] == s.pc[t]
  {
  }

  lemma WitnessStep(k: Config, states: seq<State>, actions: seq<Action>, n: nat)
    requires Behaviour(k, states, actions) && n < |actions| && !actions[n].StoreCap? && !actions[n].StoreQuota?
    requires Witnessed(states, n, actions[n].t)
    ensures Witnessed(states, n + 1, actions[n].t)
  {
    var t, s := actions[n].t, states[n];
    assert states[n + 1] == Apply(k, s, actions[n]);
    SameShape(k, states, actions, n + 1);
    SameCallOrNot(k, s, actions[n]);
    hide Told, Behaviour, Apply, Enabled;
    var x, y := s.pc[t], states[n + 1].pc[t];
    if y.Idle? || y.Releasing? {
      ToldNothing(states, n + 1, t, y);
    } else {
      if x.Idle? { ToldNothing(states, n + 1, t, x); } else { ToldStill(states, n, t, x, y.p); }
      TellsNext(k, states, n + 1, s, actions[n]);
    }
  }

  /** A step within a call stays with its partition, and a call begins from idling. */
  lemma SameCallOrNot(k: Config, s: State, a: Action)
    requires Enabled(k, s, a) && !a.StoreCap? && !a.StoreQuota?
    ensures a.t in s.pc && a.t in Apply(k, s, a).pc
    ensures var x, y := s.pc[a.t], Apply(k, s, a).pc[a.t];
      !y.Idle? && !y.Releasing? ==> 0 <= y.p && (x.Idle? || InCall(x, y.p))
  {
  }

  lemma MeetsCap(states: seq<State>, n: nat, t: Tid, p: nat, v: int, c: int)
    requires c <= v && SawCount(states, n, t, p, v) && SawCapValue(states, n, t, p, c)
    ensures CapMet(states, n, t, p)
  {
  }

  lemma MeetsQuota(states: seq<State>, n: nat, t: Tid, p: nat, v: int, q: int)
    requires q <= v && SawBusyCount(states, n, t, p, v) && SawQuotaValue(states, n, t, p, q)
    ensures QuotaMet(states, n, t, p)
  {
  }

  /** A step of the thread adds what it sees now to what it knew. */
  lemma TellsNext(k: Config, states: seq<State>, n: nat, s: State, a: Action)
    requires n < |states| && Enabled(k, s, a) && states[n] == Apply(k, s, a) && !a.StoreCap? && !a.StoreQuota?
    requires |states[n].busy| == |states[n].quota| == |k.maxQuota|
    requires Told(states, n, a.t, s.pc[a.t])
    ensures a.t in states[n].pc && Told(states, n, a.t, states[n].pc[a.t])
  {
    hide SawCount, SawCapValue, SawBusyCount, SawQuotaValue, CapMet, QuotaMet;
    var t, s' := a.t, states[n];
    var x, y := s.pc[t], s'.pc[t];
    if !y.Idle? && !y.Releasing? {
      SeesNow(states, n, t, y.p);
      if y.Saturated? {
        if a.LoadInflight? {
          MeetsCap(states, n, t, y.p, s'.inflight, x.c);
        } else {
          MeetsCap(states, n, t, y.p, x.v, s'.cap);
        }
      } else if y.Refused? {
        MeetsQuota(states, n, t, y.p, x.cur, s'.quota[y.p]);
      }
    }
  }

  /** Reserved share, with cap and quotas stored at any time: a call is refused only if an in-flight
      count current at some moment of that very call had reached a cap current at some moment of it,
      and likewise its partition's busy counter and quota. */
  lemma RefusalIsJustified(k: Config, states: seq<State>, actions: seq<Action>, n: nat, t: Tid)
    requires Behaviour(k, states, actions) && n < |states|
    requires t in states[0].pc && states[0].pc[t].Idle?
    requires t in states[n].pc && states[n].pc[t].Refused?
    ensures var p := states[n].pc[t].p;
      && (exists i, j | 0 <= i <= n && 0 <= j <= n ::
            && SameCall(states, i, n, t, p) && SameCall(states, j, n, t, p)
            && states[j].cap <= states[i].inflight)
      && (exists i, j | 0 <= i <= n && 0 <= j <= n ::
            && SameCall(states, i, n, t, p) && SameCall(states, j, n, t, p)
            && p < |states[i].busy| && p < |states[j].quota|
            && states[j].quota[p] <= states[i].busy[p])
  {
    AlwaysWitnessed(k, states, actions, n, t);
    CapMoments(states, n, t, states[n].pc[t].p);
    QuotaMoments(states, n, t, states[n].pc[t].p);
  }

  lemma CapMoments(states: seq<State>, n: nat, t: Tid, p: nat)
    requires n < |states| && CapMet(states, n, t, p)
    ensures exists i, j | 0 <= i <= n && 0 <= j <= n ::
      && SameCall(states, i, n, t, p) && SameCall(states, j, n, t, p)
      && states[j].cap <= states[i].inflight
  {
    hide SameCall;
    var v, c :| c <= v && SawCount(states, n, t, p, v) && SawCapValue(states, n, t, p, c);
    var i :| 0 <= i <= n && SameCall(states, i, n, t, p) && states[i].inflight == v;
    var j :| 0 <= j <= n && SameCall(states, j, n, t, p) && states[j].cap == c;
  }

  lemma QuotaMoments(states: seq<State>, n: nat, t: Tid, p: nat)
    requires n < |states| && QuotaMet(states, n, t, p)
    ensures exists i, j | 0 <= i <= n && 0 <= j <= n ::
      && SameCall(states, i, n, t, p) && SameCall(states, j, n, t, p)
      && p < |states[i].busy| && p < |states[j].quota|
      && states[j].quota[p] <= states[i].busy[p]
  {
    hide SameCall;
    var v, q :| q <= v && SawBusyCount(states, n, t, p, v) && SawQuotaValue(states, n, t, p, q);
    var i :| 0 <= i <= n && SameCall(states, i, n, t, p) && p < |states[i].busy| && states[i].busy[p] == v;
    var j :| 0 <= j <= n && SameCall(states, j, n, t, p) && p < |states[j].quota| && states[j].quota[p] == q;
  }

  /** With cap and quotas fixed, in-flight had reached the cap, and the partition its quota, each at
      one moment of the call. */
  lemma RefusalWithFixedLimits(k: Config, states: seq<State>, actions: seq<Action>, n: nat, t: Tid)
    requires Behaviour(k, states, actions) && n < |states|
    requires t in states[0].pc && states[0].pc[t].Idle?
    requires t in states[n].pc && states[n].pc[t].Refused?
    requires forall i | 0 <= i < |states| :: states[i].cap == states[0].cap && states[i].quota == states[0].quota
    ensures exists i, j | 0 <= i <= n && 0 <= j <= n ::
      && SameCall(states, i, n, t, states[n].pc[t].p) && states[i].cap <= states[i].inflight
      && SameCall(states, j, n, t, states[n].pc[t].p)
      && states[n].pc[t].p < |states[j].busy| == |states[j].quota|
      && states[j].quota[states[n].pc[t].p] <= states[j].busy[states[n].pc[t].p]
  {
    hide SameCall, Behaviour;
    RefusalIsJustified(k, states, actions, n, t);
    var p := states[n].pc[t].p;
    var i, i' :| 0 <= i <= n && 0 <= i' <= n && SameCall(states, i, n, t, p) && SameCall(states, i', n, t, p)
      && states[i'].cap <= states[i].inflight;
    var j, j' :| 0 <= j <= n && 0 <= j' <= n && SameCall(states, j, n, t, p) && SameCall(states, j', n, t, p)
      && p < |states[j].busy| && p < |states[j'].quota| && states[j'].quota[p] <= states[j].busy[p];
    SameShape(k, states, actions, j);
    assert states[i].cap <= states[i].inflight;
  }

  // ---------- Limits ----------

  function LastCap(cap: int, actions: seq<Action>): int
    decreases |actions|
  {
    if actions == [] then cap
    else LastCap(if actions[0].StoreCap? then actions[0].c else cap, actions[1..])
  }

  function LastQuota(p: nat, quota: int, actions: seq<Action>): int
    decreases |actions|
  {
    if actions == [] then quota
    else LastQuota(p, if actions[0].StoreQuota? && actions[0].p == p then actions[0].q else quota, actions[1..])
  }

  lemma LimitsStep(k: Config, s: State, a: Action)
    requires Enabled(k, s, a)
    ensures var s' := Apply(k, s, a);
      && s'.cap == (if a.StoreCap? then a.c else s.cap)
      && |s'.quota| == |s.quota|
      && forall p | 0 <= p < |s.quota| ::
           s'.quota[p] == if a.StoreQuota? && a.p == p then a.q else s.quota[p]
  {
  }

  /** The cap and the quotas in force are those stored last; no call changes them. */
  lemma {:induction false} LimitsAreLastStored(k: Config, s: State, actions: seq<Action>, p: nat)
    requires LegalRun(k, s, actions) && p < |s.quota|
    ensures var s' := Execute(k, s, actions);
      s'.cap == LastCap(s.cap, actions) && p < |s'.quota| && s'.quota[p] == LastQuota(p, s.quota[p], actions)
    decreases |actions|
  {
    hide Apply, Enabled;
    if actions != [] {
      LimitsStep(k, s, actions[0]);
      LimitsAreLastStored(k, Apply(k, s, actions[0]), actions[1..], p);
    }
  }
}
