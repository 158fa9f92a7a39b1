/** A waiter can be left waiting although the delegate has room: its refusal and its parking are
    separate steps, and a release in between finds nobody queued. */
module BlockingStranding {
  import opened Counting
  import opened Guards
  import opened BlockingInterleaving
  import opened BlockingInvariant
  import opened BlockingSolo

  ghost predicate Reach(d: Discipline, maxCap: nat, s: State, s': State) {
    exists actions :: LegalRun(d, maxCap, s, actions) && Execute(d, maxCap, s, actions) == s'
  }

  lemma ReachSelf(d: Discipline, maxCap: nat, s: State)
    ensures Reach(d, maxCap, s, s)
  {
    assert LegalRun(d, maxCap, s, []) && Execute(d, maxCap, s, []) == s;
  }

  lemma ReachStep(d: Discipline, maxCap: nat, s: State, a: Action, s': State)
    requires Enabled(d, maxCap, s, a) && Reach(d, maxCap, Apply(d, maxCap, s, a), s')
    ensures Reach(d, maxCap, s, s')
  {
    var next := Apply(d, maxCap, s, a);
    var rest :| LegalRun(d, maxCap, next, rest) && Execute(d, maxCap, next, rest) == s';
    hide Apply, Enabled;
    var actions := [a] + rest;
    assert actions[1..] == rest;
    assert LegalRun(d, maxCap, s, actions) && Execute(d, maxCap, s, actions) == s';
  }

  lemma {:induction false} ReachAfter(d: Discipline, maxCap: nat, s: State, first: seq<Action>, s': State)
    requires LegalRun(d, maxCap, s, first) && Reach(d, maxCap, Execute(d, maxCap, s, first), s')
    ensures Reach(d, maxCap, s, s')
    decreases |first|
  {
    hide Apply, Enabled, Reach;
    if first != [] {
      ReachAfter(d, maxCap, Apply(d, maxCap, s, first[0]), first[1..], s');
      ReachStep(d, maxCap, s, first[0], s');
    }
  }

  lemma ReachSolo(d: Discipline, maxCap: nat, t: Tid, s: State, m: State, s': State)
    requires Solo(d, maxCap, t, s, m) && Reach(d, maxCap, m, s')
    ensures Reach(d, maxCap, s, s')
  {
    var first :| LegalRun(d, maxCap, s, first) && Execute(d, maxCap, s, first) == m && OnlyBy(t, first);
    ReachAfter(d, maxCap, s, first, s');
  }

  lemma ServedNobody(s: State, s': State)
    requires Served(s, s', 0)
    ensures s' == s
  {
    assert s.queue[..0] == [] && SlotsOf([]) == {} && Members([]) == {};
    assert s'.cells == s.cells;
    assert s.queue[0..] == s.queue;
  }

  /** The release of the last guard in the way, while u has been refused and is not queued yet. */
  lemma ReleaseMeetsNobody(d: Discipline, maxCap: nat, s: State, t: Tid, u: Tid, id: SlotId, status: Status)
    requires Inv(d, maxCap, s) && Free(s, t) && Free(s, u) && t != u
    requires s.queue == [] && s.cap <= s.inflight && id in s.outer
    ensures Solo(d, maxCap, t, Goto(s, u, Turned), Goto(GivenBack(s, id, status), u, Turned))
  {
    var m := Goto(s, u, Turned);
    hide Inv, Solo, Served;
    SoloSelf(d, maxCap, u, m);
    SoloTurn(d, maxCap, s, u, m);
    SoloKeeps(d, maxCap, u, s, m);
    SoloRelease(d, maxCap, m, t, id, status);
    var s' :| Solo(d, maxCap, t, m, s') && Served(GivenBack(m, id, status), s', 0);
    ServedNobody(GivenBack(m, id, status), s');
    assert GivenBack(m, id, status) == Goto(GivenBack(s, id, status), u, Turned);
  }

  /** The parked thread has no slot and no notification, though the delegate has room, and no other
      thread has anything left to do. */
  ghost predicate Stranded(s: State, u: Tid) {
    && s.queue == [u] && u !in s.ready && Slot(u) !in s.cells && s.inflight < s.cap && s.lock == None
    && u in s.pc && s.pc[u].Parked? && forall t | t in s.pc && t != u :: s.pc[t].Idle?
  }

  lemma StrandingRun(d: Discipline, maxCap: nat, s: State, t: Tid, u: Tid, id: SlotId, status: Status)
    requires Inv(d, maxCap, s) && Free(s, t) && Free(s, u) && t != u
    requires s.queue == [] && s.cap <= s.inflight && id in s.outer && (d.Lifo? ==> 0 < d.backlog)
    ensures Reach(d, maxCap, s, Queued(d, GivenBack(s, id, status), u))
  {
    var back := GivenBack(s, id, status);
    var m := Goto(back, u, Turned);
    var turned := Goto(s, u, Turned);
    var s' := Queued(d, back, u);
    ReleaseMeetsNobody(d, maxCap, s, t, u, id, status);
    hide Inv, Solo, Reach, Enabled, Apply, Queued, Goto;
    ParkStep(d, maxCap, back, u);
    ReachSelf(d, maxCap, s');
    ReachStep(d, maxCap, m, Park(u), s');
    ReachSolo(d, maxCap, t, turned, m, s');
    SoloSelf(d, maxCap, u, turned);
    SoloTurn(d, maxCap, s, u, turned);
    ReachSolo(d, maxCap, u, s, turned, s');
  }

  /** From every state in which all threads are idle, the delegate is exactly full and somebody holds
      an outer guard, a run of one acquire and one release strands the acquirer. */
  lemma AcquirerCanBeStranded(d: Discipline, maxCap: nat, s: State, t: Tid, u: Tid, id: SlotId, status: Status)
    requires Inv(d, maxCap, s) && t in s.pc && u in s.pc && t != u && forall v | v in s.pc :: s.pc[v].Idle?
    requires s.inflight == s.cap && id in s.outer && (d.Lifo? ==> 0 < d.backlog)
    ensures exists s' :: Reach(d, maxCap, s, s') && Stranded(s', u)
  {
    hide Inv, Reach;
    AllIdle(d, maxCap, s, u);
    StrandingRun(d, maxCap, s, t, u, id, status);
    assert Stranded(Queued(d, GivenBack(s, id, status), u), u);
  }

  lemma AllIdle(d: Discipline, maxCap: nat, s: State, u: Tid)
    requires Inv(d, maxCap, s) && forall v | v in s.pc :: s.pc[v].Idle?
    ensures s.queue == [] && s.lock == None && Slot(u) !in s.cells
  {
    hide OwnedInv, TokensInv, ReadyInv, CapInv, OrderInv, ServedInv, MirrorInv, AdmissionsInv, IdsInv;
    AtHome(s, u);
    if s.queue != [] {
      assert s.queue[0] in s.queue;
      AtHome(s, s.queue[0]);
      assert false;
    }
    assert forall t: Tid :: s.lock != Some(t);
    HeldBySomebody(s.lock);
  }

  lemma HeldBySomebody(lock: Option<Tid>)
    ensures lock == None || exists t: Tid :: lock == Some(t)
  {
  }

  /** So with a cap of one, two threads and a new limiter: a waiter is stranded in some run, of either
      discipline, until it times out or some later release comes. */
  lemma SomeRunStrands(d: Discipline, maxCap: nat, s: State, t: Tid, u: Tid)
    requires Initial(maxCap, s) && s.cap == 1 && t in s.pc && u in s.pc && t != u && (d.Lifo? ==> 0 < d.backlog)
    ensures exists s' :: Reach(d, maxCap, s, s') && Stranded(s', u)
  {
    hide Inv, Solo, Reach, Initial, Granted, Free, Stranded;
    InitialHolds(d, maxCap, s);
    OneGranted(maxCap, s, t);
    var m := Granted(s);
    SoloAcquire(d, maxCap, s, t);
    SoloKeeps(d, maxCap, t, s, m);
    AcquirerCanBeStranded(d, maxCap, m, t, u, s.nextId, Success);
    var s' :| Reach(d, maxCap, m, s') && Stranded(s', u);
    ReachSolo(d, maxCap, t, s, m, s');
  }

  lemma OneGranted(maxCap: nat, s: State, t: Tid)
    requires Initial(maxCap, s) && s.cap == 1 && t in s.pc
    ensures Free(s, t) && s.inflight < s.cap
    ensures var m := Granted(s);
      && m.pc == s.pc && m.inflight == m.cap && s.nextId in m.outer && forall v | v in m.pc :: m.pc[v].Idle?
  {
  }
}
