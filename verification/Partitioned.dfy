/** The partitioned limiter's quotas, partition resolution and one-thread gate
    (src/abstract_partitioned_limiter.cc). The interleavings are in `PartitionedInterleaving`. */
module Partitioned {
  import opened Counting
  import opened RealMath
  import I = PartitionedInterleaving
  import R = PartitionedRuns

  type Resolver = string -> Option<string>

  /** A partition's share of the cap: rounded up, and never below one slot. */
  function ComputePartitionLimit(globalLimit: int, percent: real): (limit: int)
    ensures 1 <= limit
  {
    var computed := Ceil(globalLimit as real * percent);
    if computed < 1 then 1 else computed
  }

  function Quotas(globalLimit: int, percents: seq<real>): seq<int> {
    seq(|percents|, i requires 0 <= i < |percents| => ComputePartitionLimit(globalLimit, percents[i]))
  }

  predicate Resolves(resolver: Resolver, context: string, index: map<string, nat>) {
    resolver(context).Some? && resolver(context).value in index
  }

  /** The fields a gate decision changes. */
  datatype View = View(inflight: int, delayed: int, busy: seq<int>, quota: seq<int>)

  class PartitionedLimiter {
    var inflight: int
    var delayed: int
    const busy: array<int>
    const quota: array<int>
    const percents: seq<real>
    const delays: seq<bool>
    const maxDelayed: int
    const resolvers: seq<Resolver>
    const index: map<string, nat>
    const unknown: nat

    ghost predicate Valid() {
      && busy.Length == quota.Length == |percents| == |delays|
      && busy != quota
      && unknown < busy.Length
      && forall name | name in index :: index[name] < busy.Length
    }

    function State(): View
      reads this, busy, quota
    {
      View(inflight, delayed, busy[..], quota[..])
    }

    /** The builder's validated output: declared partitions in order, then "unknown" with no share. */
    constructor (shares: seq<real>, delays: seq<bool>, maxDelayed: int, resolvers: seq<Resolver>,
                 names: map<string, nat>, cap: int)
      requires |shares| == |delays| && forall name | name in names :: names[name] < |shares|
      ensures Valid() && fresh(busy) && fresh(quota)
      ensures percents == shares + [0.0] && unknown == |shares|
      ensures State() == View(0, 0, seq(|shares| + 1, _ => 0), Quotas(cap, percents))
    {
      inflight, delayed := 0, 0;
      busy := new int[|shares| + 1](_ => 0);
      quota := new int[|shares| + 1](_ => 0);
      percents, this.delays := shares + [0.0], delays + [false];
      this.maxDelayed, this.resolvers := maxDelayed, resolvers;
      index := names["unknown" := |shares|];
      unknown := |shares|;
      new;
      RecomputePartitionLimits(cap);
    }

    /** Stores every partition's quota for a new cap. */
    method RecomputePartitionLimits(newGlobalLimit: int)
      requires Valid()
      modifies quota
      ensures quota[..] == Quotas(newGlobalLimit, percents)
    {
      for i := 0 to quota.Length
        invariant forall j | 0 <= j < i :: quota[j] == ComputePartitionLimit(newGlobalLimit, percents[j])
      {
        quota[i] := ComputePartitionLimit(newGlobalLimit, percents[i]);
      }
    }

    /** The first resolver that names a configured partition decides; with none, "unknown". */
    method ResolvePartition(context: string) returns (p: nat)
      requires Valid()
      ensures p < busy.Length
      ensures (exists r | 0 <= r < |resolvers| ::
                 && Resolves(resolvers[r], context, index) && p == index[resolvers[r](context).value]
                 && forall i | 0 <= i < r :: !Resolves(resolvers[i], context, index))
        || (p == unknown && forall i | 0 <= i < |resolvers| :: !Resolves(resolvers[i], context, index))
    {
      for i := 0 to |resolvers|
        invariant forall j | 0 <= j < i :: !Resolves(resolvers[j], context, index)
      {
        var name := resolvers[i](context);
        if name.Some? && name.value in index {
          assert Resolves(resolvers[i], context, index);
          return index[name.value];
        }
      }
      p := unknown;
    }

    /** A gate decision with no other thread at work; `failures` counts the spurious failures of the
        weak compare-and-swap, which change nothing. */
    method DoAcquire(p: nat, cap: int, failures: nat) returns (admitted: bool)
      requires Valid() && p < busy.Length
      modifies this`inflight, this`delayed, busy
      ensures admitted <==> old(inflight) < cap || old(busy[p]) < quota[p]
      ensures State() == if admitted then AdmittedTo(old(State()), p) else old(State())
    {
      if inflight >= cap {
        var left, current := failures, busy[p];
        admitted := false;
        while true
          invariant !admitted && State() == old(State()) && current == busy[p] && cap <= inflight
          decreases left
        {
          var partCap := quota[p];
          if current >= partCap {
            break;
          }
          if left == 0 {
            busy[p] := current + 1;
            admitted := true;
            break;
          }
          left, current := left - 1, busy[p];
        }
      } else {
        busy[p] := busy[p] + 1;
        admitted := true;
      }
      if !admitted {
        var _ := MaybeBackoffDelay(p);
        return;
      }
      inflight := inflight + 1;
    }

    /** Reserves a sleeping place if one is left, sleeps, and gives it back. */
    method MaybeBackoffDelay(p: nat) returns (slept: bool)
      requires Valid() && p < busy.Length
      modifies this`delayed
      ensures delayed == old(delayed)
      ensures slept <==> delays[p] && old(delayed) < maxDelayed
    {
      if !delays[p] {
        return false;
      }
      if delayed < maxDelayed {
        delayed := delayed + 1;
        delayed := delayed - 1;
        return true;
      }
      return false;
    }

    /** A completion: in-flight first, then the partition's counter. */
    method Release(p: nat)
      requires Valid() && p < busy.Length
      modifies this`inflight, busy
      ensures State() == ReleasedFrom(old(State()), p)
    {
      inflight := inflight - 1;
      busy[p] := busy[p] - 1;
    }
  }

  function AdmittedTo(v: View, p: nat): View
    requires p < |v.busy|
  {
    v.(inflight := v.inflight + 1, busy := v.busy[p := v.busy[p] + 1])
  }

  function ReleasedFrom(v: View, p: nat): View
    requires p < |v.busy|
  {
    v.(inflight := v.inflight - 1, busy := v.busy[p := v.busy[p] - 1])
  }

  /** The one-thread gate is a run of the interleaving model: from any state with the caller idle,
      an admitted call changes the shared counters as `DoAcquire` says. */
  lemma GateIsAnUninterruptedCall(k: I.Config, s: I.State, t: I.Tid, p: nat)
    requires R.Tidy(k, s) && t in s.pc && s.pc[t].Idle? && p < |s.busy|
    requires s.inflight < s.cap || s.busy[p] < s.quota[p]
    ensures exists s' ::
      && R.Reach(k, s, s')
      && View(s'.inflight, s'.delayed, s'.busy, s'.quota)
        == AdmittedTo(View(s.inflight, s.delayed, s.busy, s.quota), p)
      && s'.pc == s.pc && s'.held == s.held[p := s.held[p] + 1]
  {
    if s.inflight < s.cap {
      R.SoloBurst(k, s, t, p);
    } else {
      R.SoloSwap(k, s, t, p);
    }
    assert R.Reach(k, s, R.Granted(s, p));
  }

  function ViewOf(s: I.State): View { View(s.inflight, s.delayed, s.busy, s.quota) }

  /** The one-thread release is a run of the interleaving model, and needs a guard to give back. */
  lemma ReleaseIsAnUninterruptedCall(k: I.Config, s: I.State, t: I.Tid, p: nat)
    requires R.Tidy(k, s) && t in s.pc && s.pc[t].Idle? && p < |s.busy| && 0 < s.held[p]
    ensures exists s' ::
      && R.Reach(k, s, s') && ViewOf(s') == ReleasedFrom(ViewOf(s), p)
      && s'.pc == s.pc && s'.held == s.held[p := s.held[p] - 1]
  {
    R.SoloRelease(k, s, t, p);
    assert R.Reach(k, s, R.GivenBack(s, p));
  }

  /** So is the one-thread refusal; with a delay and room in the budget it sleeps on the way. */
  lemma RefusalIsAnUninterruptedCall(k: I.Config, s: I.State, t: I.Tid, p: nat)
    requires R.Tidy(k, s) && |k.delays| == |k.maxQuota| && t in s.pc && s.pc[t].Idle? && p < |s.busy|
    requires s.cap <= s.inflight && s.quota[p] <= s.busy[p]
    ensures var refused := I.Goto(s, t, I.Refused(p));
      && R.Reach(k, s, refused) && R.Reach(k, refused, s)
      && (k.delays[p] && s.delayed < k.budget ==>
            R.Reach(k, refused, R.Dozing(s, t, p)) && R.Reach(k, R.Dozing(s, t, p), s))
  {
    R.SoloRefused(k, s, t, p);
    R.SoloBackoff(k, s, t, p);
  }

  /** An admission followed by a release of the same partition leaves every counter as it was. */
  lemma ReleaseUndoesAdmission(v: View, p: nat)
    requires p < |v.busy|
    ensures ReleasedFrom(AdmittedTo(v, p), p) == v
  {
    assert v.busy[p := v.busy[p] + 1][p := v.busy[p]] == v.busy;
  }

  /** The same through the methods. */
  method AdmitAndRelease(limiter: PartitionedLimiter, p: nat, cap: int, failures: nat) returns (admitted: bool)
    requires limiter.Valid() && p < limiter.busy.Length
    modifies limiter`inflight, limiter`delayed, limiter.busy
    ensures limiter.State() == old(limiter.State())
    ensures admitted <==> old(limiter.inflight) < cap || old(limiter.busy[p]) < limiter.quota[p]
  {
    ghost var before := limiter.State();
    admitted := limiter.DoAcquire(p, cap, failures);
    if admitted {
      limiter.Release(p);
      ReleaseUndoesAdmission(before, p);
    }
  }

  // ---------- Quotas ----------

  /** Every partition's quota is the least number of slots of at least one that covers its share. */
  lemma QuotasAreLeast(cap: int, percents: seq<real>, p: nat, slots: int)
    requires p < |percents|
    ensures |Quotas(cap, percents)| == |percents|
    ensures Quotas(cap, percents)[p] <= slots <==> 1 <= slots && Share(cap, percents[p]) <= slots as real
  {
    QuotaIsLeast(cap, percents[p], slots);
    hide ComputePartitionLimit, Share;
  }

  function Total(percents: seq<real>): real { if percents == [] then 0.0 else percents[0] + Total(percents[1..]) }

  /** What the builder's sum check lets through. */
  ghost predicate Declarable(percents: seq<real>) {
    (forall i | 0 <= i < |percents| :: 0.0 <= percents[i] <= 1.0) && Total(percents) <= 1.000000001
  }

  /** A share of the cap, in slots. */
  function Share(cap: int, percent: real): real { cap as real * percent }

  lemma ShareAdds(cap: int, x: real, y: real)
    ensures Share(cap, x + y) == Share(cap, x) + Share(cap, y)
    ensures Share(cap, 0.0) == 0.0 && Share(cap, 1.0) == cap as real
  {
    assert cap as real * (x + y) == cap as real * x + cap as real * y;
  }

  lemma ShareMono(cap: int, x: real, y: real)
    requires 0 <= cap && x <= y
    ensures Share(cap, x) <= Share(cap, y)
  {
    MulMono(cap as real, x, y);
  }

  /** A quota is the least whole number of slots that is at least one and covers the share. */
  lemma QuotaIsLeast(cap: int, percent: real, slots: int)
    ensures ComputePartitionLimit(cap, percent) <= slots <==> 1 <= slots && Share(cap, percent) <= slots as real
    ensures ComputePartitionLimit(cap, percent) as real < Share(cap, percent) + 1.0
         || ComputePartitionLimit(cap, percent) == 1
  {
    var share := Share(cap, percent);
    assert share <= Ceil(share) as real < share + 1.0;
  }

  lemma QuotaMonotone(cap: int, bigger: int, percent: real)
    requires 0.0 <= percent && cap <= bigger
    ensures ComputePartitionLimit(cap, percent) <= ComputePartitionLimit(bigger, percent)
  {
    MulMono(percent, cap as real, bigger as real);
    CeilMono(cap as real * percent, bigger as real * percent);
  }

  /** Rounding up costs less than one slot per partition, unless nothing was shared out at all. */
  lemma {:induction false} RoundingCost(cap: int, percents: seq<real>)
    requires 0 <= cap && forall i | 0 <= i < |percents| :: 0.0 <= percents[i]
    ensures 0.0 <= Share(cap, Total(percents))
    ensures Sum(Quotas(cap, percents)) as real < Share(cap, Total(percents)) + |percents| as real
         || Sum(Quotas(cap, percents)) == |percents|
  {
    hide Share, ComputePartitionLimit;
    if percents == [] {
      ShareAdds(cap, 0.0, 0.0);
    } else {
      RoundingCost(cap, percents[1..]);
      QuotaIsLeast(cap, percents[0], 1);
      assert Quotas(cap, percents)[1..] == Quotas(cap, percents[1..]);
      ShareAdds(cap, percents[0], Total(percents[1..]));
      ShareMono(cap, 0.0, percents[0]);
    }
  }

  /** What the builder's tolerance of a billionth can add to the quotas of a cap. */
  function Slack(cap: int): int { Ceil(Share(cap, 0.000000001)) }

  /** The quotas of n declared partitions and "unknown" exceed the cap by at most n slots (n + 1 for a
      cap of zero), and by the slack of the builder's sum check where that is used. */
  lemma QuotaSum(cap: int, shares: seq<real>)
    requires 0 <= cap && Declarable(shares)
    ensures Total(shares) <= 1.0 ==>
      Sum(Quotas(cap, shares + [0.0])) <= cap + |shares| + if cap == 0 then 1 else 0
    ensures Sum(Quotas(cap, shares + [0.0])) <= cap + |shares| + if cap == 0 then 1 else Slack(cap)
    ensures Quotas(cap, shares + [0.0])[|shares|] == 1
  {
    RoundingCost(cap, shares);
    QuotasAppend(cap, shares);
    SlackPositive(cap);
    ShareAdds(cap, 1.0, 0.000000001);
    ShareMono(cap, Total(shares), 1.000000001);
    if Total(shares) <= 1.0 { ShareMono(cap, Total(shares), 1.0); }
    hide Quotas, Total, Sum, Share;
  }

  lemma SlackPositive(cap: int)
    requires 0 <= cap
    ensures 0 < cap ==> 1 <= Slack(cap)
    ensures cap <= 1_000_000_000 ==> Slack(cap) <= 1
  {
    var share := Share(cap, 0.000000001);
    assert share == cap as real * 0.000000001;
  }

  lemma {:induction false} QuotasAppend(cap: int, shares: seq<real>)
    ensures Sum(Quotas(cap, shares + [0.0])) == Sum(Quotas(cap, shares)) + 1
    ensures Quotas(cap, shares + [0.0])[|shares|] == 1
  {
    assert ComputePartitionLimit(cap, 0.0) == 1;
    var q := Quotas(cap, shares + [0.0]);
    if shares == [] {
      assert q == [1];
      assert q[1..] == [];
    } else {
      QuotasAppend(cap, shares[1..]);
      assert (shares + [0.0])[1..] == shares[1..] + [0.0];
      assert q[1..] == Quotas(cap, shares[1..] + [0.0]);
      assert Quotas(cap, shares)[1..] == Quotas(cap, shares[1..]);
    }
  }

  /** In terms of the configuration alone: n declared partitions and T threads never hold more than
      twice the cap plus n - 2 + T slots, however the calls interleave, while the cap stays at or
      below `cap` and the quotas are those of some such cap; with shares beyond one, as the builder's
      tolerance allows, plus the slack. */
  lemma OvershootOfConfiguration(cap: int, shares: seq<real>, k: I.Config, s: I.State, actions: seq<I.Action>)
    requires 1 <= cap && Declarable(shares)
    requires I.Sound(k) && k.maxCap == cap && k.maxQuota == Quotas(cap, shares + [0.0])
    requires I.Initial(k, s) && 1 <= |s.pc| && I.LegalRun(k, s, actions)
    ensures Total(shares) <= 1.0 ==> I.Execute(k, s, actions).inflight <= 2 * cap + |shares| - 2 + |s.pc|
    ensures I.Execute(k, s, actions).inflight <= 2 * cap + |shares| - 2 + Slack(cap) + |s.pc|
  {
    I.OvershootBound(k, s, actions);
    QuotaSum(cap, shares);
    hide Quotas, Total, Sum, Slack, Share;
  }
}
