/** What single calls on the blocking limiters do: at each step of any run, and when nobody
    interrupts them. */
module BlockingSolo {
  import opened Counting
  import opened Guards
  import opened BlockingInterleaving
  import opened BlockingInvariant
  import BlockingRuns

  // ---------- Where a call may go, whatever the other threads do ----------

  predicate Releasing(x: Pc) { x.Completing? || x.Extracted? || x.Released? || x.Handing? }

  /** Nobody is left to serve, or the delegate has refused on a count at or above its cap. */
  ghost predicate NobodyToServe(s: State, after: State, a: Action)
    requires !a.StoreCap? && a.t in s.pc
  {
    || after.queue == []
    || (after.queue == s.queue && a.LoadCap? && s.pc[a.t].Handing? && s.pc[a.t].cas.ReadCap?
        && s.cap <= s.pc[a.t].cas.cur)
  }

  /** A completion extracts, mirrors the status it was given and serves the queue: it does not end
      while there is somebody to serve. */
  ghost predicate GoesOnServing(s: State, after: State, a: Action)
    requires !a.StoreCap? && a.t in s.pc && a.t in after.pc
  {
    var (x, x') := (s.pc[a.t], after.pc[a.t]);
    && (Releasing(x) ==> Releasing(x') || (x'.Idle? && NobodyToServe(s, after, a)))
    && (x.Completing? ==> x' == Extracted(x.status))
    && (x.Extracted? ==> x'.Released?)
    && (x.Released? && s.queue != [] ==> x'.Handing? && after.lock == Some(a.t))
    && (x.Handing? && x'.Handing? && a.LoadCap? ==> x.cas.ReadCap? && x'.cas == Swap(x.cas.cur) && x.cas.cur < s.cap)
    && (x.Handing? && x'.Handing? && a.SwapInflight? ==>
          x'.cas == if after.queue == s.queue then ReadCap(s.inflight) else Load)
  }

  /** A call turns away from the delegate only on a count at or above the cap, goes round again with
      the live count when its swap fails, and then parks unless a bounded backlog is full. */
  ghost predicate GoesOnAcquiring(d: Discipline, s: State, after: State, a: Action)
    requires !a.StoreCap? && a.t in s.pc && a.t in after.pc
  {
    var (x, x') := (s.pc[a.t], after.pc[a.t]);
    && (x.Fast? ==>
          || x'.Fast?
          || (x'.Got? && a.SwapInflight? && x.cas == Swap(s.inflight) && after.inflight == s.inflight + 1)
          || (x'.Turned? && a.LoadCap? && x.cas.ReadCap? && s.cap <= x.cas.cur))
    && (x.Fast? && x'.Fast? && a.SwapInflight? ==> x'.cas == ReadCap(s.inflight))
    && (x.Fast? && x'.Fast? && a.LoadCap? ==> x.cas.ReadCap? && x'.cas == Swap(x.cas.cur) && x.cas.cur < s.cap)
    && (x.Turned? ==>
          if d.Lifo? && d.backlog <= |s.queue| then x'.Idle? && after.queue == s.queue
          else x'.Parked? && after.queue == if d.Fifo? then s.queue + [a.t] else [a.t] + s.queue)
  }

  lemma ServingInside(d: Discipline, maxCap: nat, s: State, a: Action)
    requires LockInv(s) && Enabled(d, maxCap, s, a) && (a.LoadInflight? || a.LoadCap?)
    ensures a.t in Apply(d, maxCap, s, a).pc && GoesOnServing(s, Apply(d, maxCap, s, a), a)
  {
    hide Distinct;
  }

  lemma ServingSwap(d: Discipline, maxCap: nat, s: State, a: Action)
    requires Enabled(d, maxCap, s, a) && a.SwapInflight?
    ensures a.t in Apply(d, maxCap, s, a).pc && GoesOnServing(s, Apply(d, maxCap, s, a), a)
  {
  }

  lemma ServingElsewhere(d: Discipline, maxCap: nat, s: State, a: Action)
    requires IdsInv(s) && Enabled(d, maxCap, s, a) && !a.StoreCap? && !AtDelegate(a)
    ensures a.t in Apply(d, maxCap, s, a).pc && GoesOnServing(s, Apply(d, maxCap, s, a), a)
  {
    hide Erased, BlockingInterleaving.Moved, Plus, Admit, Refuse, Within;
  }

  lemma ServingStep(d: Discipline, maxCap: nat, s: State, a: Action)
    requires Inv(d, maxCap, s) && Enabled(d, maxCap, s, a) && !a.StoreCap?
    ensures a.t in Apply(d, maxCap, s, a).pc && GoesOnServing(s, Apply(d, maxCap, s, a), a)
  {
    hide Enabled, Apply, GoesOnServing, LockInv, IdsInv, CellsInv, OwnedInv, TokensInv, ReadyInv, CapInv, OrderInv,
         ServedInv, MirrorInv, AdmissionsInv;
    if a.SwapInflight? {
      ServingSwap(d, maxCap, s, a);
    } else if AtDelegate(a) {
      ServingInside(d, maxCap, s, a);
    } else {
      ServingElsewhere(d, maxCap, s, a);
    }
  }

  lemma AcquiringInside(d: Discipline, maxCap: nat, s: State, a: Action)
    requires Enabled(d, maxCap, s, a) && (a.LoadInflight? || a.LoadCap?)
    ensures a.t in Apply(d, maxCap, s, a).pc && GoesOnAcquiring(d, s, Apply(d, maxCap, s, a), a)
  {
  }

  lemma AcquiringSwap(d: Discipline, maxCap: nat, s: State, a: Action)
    requires Enabled(d, maxCap, s, a) && a.SwapInflight?
    ensures a.t in Apply(d, maxCap, s, a).pc && GoesOnAcquiring(d, s, Apply(d, maxCap, s, a), a)
  {
  }

  lemma AcquiringElsewhere(d: Discipline, maxCap: nat, s: State, a: Action)
    requires Enabled(d, maxCap, s, a) && !a.StoreCap? && !AtDelegate(a)
    ensures a.t in Apply(d, maxCap, s, a).pc && GoesOnAcquiring(d, s, Apply(d, maxCap, s, a), a)
  {
    hide Erased, BlockingInterleaving.Moved, Plus, Admit, Refuse, Within;
  }

  lemma AcquiringStep(d: Discipline, maxCap: nat, s: State, a: Action)
    requires Enabled(d, maxCap, s, a) && !a.StoreCap?
    ensures a.t in Apply(d, maxCap, s, a).pc && GoesOnAcquiring(d, s, Apply(d, maxCap, s, a), a)
  {
    hide Enabled, Apply, GoesOnAcquiring;
    if a.SwapInflight? {
      AcquiringSwap(d, maxCap, s, a);
    } else if AtDelegate(a) {
      AcquiringInside(d, maxCap, s, a);
    } else {
      AcquiringElsewhere(d, maxCap, s, a);
    }
  }

  /** In every run each step of a completion leads on to the hand-off, and each step of an acquire to
      a guard or a place in the queue: a completion ends only when nobody is left to serve, a call
      parks only after the delegate refused, and is turned away for good only by a full backlog. */
  lemma CallsGoOn(d: Discipline, maxCap: nat, s: State, actions: seq<Action>, a: Action)
    requires Initial(maxCap, s) && LegalRun(d, maxCap, s, actions)
    requires Enabled(d, maxCap, Execute(d, maxCap, s, actions), a) && !a.StoreCap?
    ensures var s' := Execute(d, maxCap, s, actions);
      var after := Apply(d, maxCap, s', a);
      && a.t in s'.pc && a.t in after.pc
      && GoesOnServing(s', after, a) && GoesOnAcquiring(d, s', after, a)
  {
    hide Enabled, Apply, Execute, LegalRun, Initial, Inv, GoesOnServing, GoesOnAcquiring;
    BlockingRuns.Reached(d, maxCap, s, actions);
    var s' := Execute(d, maxCap, s, actions);
    ServingStep(d, maxCap, s', a);
    AcquiringStep(d, maxCap, s', a);
    assert a.t in s'.pc by { EnabledThread(d, maxCap, s', a); }
  }

  lemma EnabledThread(d: Discipline, maxCap: nat, s: State, a: Action)
    requires Enabled(d, maxCap, s, a) && !a.StoreCap?
    ensures a.t in s.pc
  {
  }

  // ---------- Calls that nobody interrupts ----------

  /** A run of thread t alone leads from s to s'. */
  ghost predicate Solo(d: Discipline, maxCap: nat, t: Tid, s: State, s': State) {
    exists actions ::
      LegalRun(d, maxCap, s, actions) && Execute(d, maxCap, s, actions) == s' && OnlyBy(t, actions)
  }

  ghost predicate OnlyBy(t: Tid, actions: seq<Action>) {
    forall i | 0 <= i < |actions| :: !actions[i].StoreCap? && actions[i].t == t
  }

  lemma SoloSelf(d: Discipline, maxCap: nat, t: Tid, s: State)
    ensures Solo(d, maxCap, t, s, s)
  {
    assert LegalRun(d, maxCap, s, []) && Execute(d, maxCap, s, []) == s && OnlyBy(t, []);
  }

  lemma SoloStep(d: Discipline, maxCap: nat, s: State, a: Action, s': State)
    requires Enabled(d, maxCap, s, a) && !a.StoreCap?
    requires Solo(d, maxCap, a.t, Apply(d, maxCap, s, a), s')
    ensures Solo(d, maxCap, a.t, s, s')
  {
    var next := Apply(d, maxCap, s, a);
    var rest :| LegalRun(d, maxCap, next, rest) && Execute(d, maxCap, next, rest) == s' && OnlyBy(a.t, rest);
    hide Apply, Enabled;
    var actions := [a] + rest;
    assert actions[1..] == rest;
    assert forall i | 0 < i < |actions| :: actions[i] == rest[i - 1];
    assert LegalRun(d, maxCap, s, actions) && Execute(d, maxCap, s, actions) == s' && OnlyBy(a.t, actions);
  }

  // ---------- The hand-off ----------

  function SlotsOf(q: seq<Tid>): set<Place> { set w | w in q :: Slot(w) }

  /** The parking tickets of the waiters in q. */
  function TicketsOf(tickets: map<Tid, nat>, q: seq<Tid>): seq<nat> {
    if q == [] then [] else [if q[0] in tickets then tickets[q[0]] else 0] + TicketsOf(tickets, q[1..])
  }

  function Members(q: seq<Tid>): set<Tid> { set w | w in q }

  /** Each waiter in q has been given a guard of its own, numbered from `next` on; no other cell has
      changed. */
  ghost predicate Filled(cells: map<Place, Token>, cells': map<Place, Token>, next: Token, q: seq<Tid>) {
    && cells'.Keys == cells.Keys + SlotsOf(q)
    && (forall p | p in cells :: p in cells' && cells'[p] == cells[p])
    && (forall i | 0 <= i < |q| :: Slot(q[i]) in cells' && cells'[Slot(q[i])] == next + i)
  }

  /** s' is s with its first k waiters served, the head first: each is off the queue, notified and
      has a new guard in its slot. Nothing else has changed. */
  ghost predicate Served(s: State, s': State, k: nat) {
    && k <= |s.queue|
    && Filled(s.cells, s'.cells, s.nextToken, s.queue[..k])
    && s' == s.(inflight := s.inflight + k, nextToken := s.nextToken + k, queue := s.queue[k..],
                cells := s'.cells, ready := s.ready + Members(s.queue[..k]),
                served := s.served + TicketsOf(s.tickets, s.queue[..k]))
  }

  /** The state once thread t has stopped handing out. */
  function Stopped(s: State, t: Tid): State { Goto(s, t, Idle).(lock := None) }

  lemma ServedNone(s: State)
    ensures Served(s, s, 0)
  {
    assert s.queue[..0] == [] && s.queue[0..] == s.queue;
    assert SlotsOf([]) == {} && Members([]) == {};
    assert s.ready == s.ready + Members([]);
  }

  lemma ServedOne(s: State, t: Tid)
    requires t in s.pc && s.pc[t].Handing? && s.queue != []
    requires s.queue[0] in s.tickets && Slot(s.queue[0]) !in s.cells
    ensures Served(Stopped(s, t), Stopped(Admit(s, t), t), 1)
  {
    var w := s.queue[0];
    var (a, b) := (Stopped(s, t), Stopped(Admit(s, t), t));
    assert s.queue[..1] == [w] && [w][1..] == [];
    assert Members([w]) == {w};
    assert TicketsOf(s.tickets, [w]) == [s.tickets[w]] + TicketsOf(s.tickets, []);
    assert b.cells == s.cells[Slot(w) := s.nextToken];
    assert Filled(a.cells, b.cells, s.nextToken, [w]) by {
      assert SlotsOf([w]) == {Slot(w)};
      assert b.cells.Keys == s.cells.Keys + {Slot(w)};
    }
    assert b.pc == a.pc;
  }

  lemma FilledMore(c0: map<Place, Token>, c1: map<Place, Token>, c2: map<Place, Token>, next: Token, w: Tid,
      rest: seq<Tid>)
    requires Filled(c0, c1, next, [w]) && Filled(c1, c2, next + 1, rest)
    ensures Filled(c0, c2, next, [w] + rest)
  {
    var all := [w] + rest;
    assert SlotsOf(all) == SlotsOf([w]) + SlotsOf(rest);
    forall i | 0 <= i < |all|
      ensures Slot(all[i]) in c2 && c2[Slot(all[i])] == next + i
    {
      if i > 0 { assert all[i] == rest[i - 1]; } else { assert all[i] == [w][0]; }
    }
  }

  lemma ListsMore(tickets: map<Tid, nat>, ready: set<Tid>, served: seq<nat>, w: Tid, rest: seq<Tid>)
    ensures ready + Members([w]) + Members(rest) == ready + Members([w] + rest)
    ensures served + TicketsOf(tickets, [w]) + TicketsOf(tickets, rest) == served + TicketsOf(tickets, [w] + rest)
  {
    var all := [w] + rest;
    assert all[1..] == rest && [w][1..] == [];
    assert Members(all) == Members([w]) + Members(rest);
    assert TicketsOf(tickets, [w]) == [if w in tickets then tickets[w] else 0] + TicketsOf(tickets, []);
    assert TicketsOf(tickets, all) == TicketsOf(tickets, [w]) + TicketsOf(tickets, rest);
  }

  lemma ServedMore(a: State, b: State, c: State, k: nat)
    requires Served(a, b, 1) && Served(b, c, k)
    ensures Served(a, c, 1 + k)
  {
    hide Filled, TicketsOf, Members;
    var (w, rest) := (a.queue[0], b.queue[..k]);
    assert a.queue[..1] == [w];
    assert a.queue[..1 + k] == [w] + rest;
    assert c.queue == a.queue[1 + k..];
    FilledMore(a.cells, b.cells, c.cells, a.nextToken, w, rest);
    ListsMore(a.tickets, a.ready, a.served, w, rest);
  }

  /** One thread's successive points of the code: only the last counts. */
  lemma GotoTwice(s: State, t: Tid, x: Pc, y: Pc)
    ensures Goto(Goto(s, t, x), t, y) == Goto(s, t, y)
    ensures t in s.pc && s.pc[t] == y ==> Goto(s, t, y) == s
  {
    assert s.pc[t := x][t := y] == s.pc[t := y];
    assert t in s.pc && s.pc[t] == y ==> s.pc[t := y] == s.pc;
  }

  /** The state after a round of the hand-off that the delegate admits. */
  function Round(s: State, t: Tid): State
    requires t in s.pc && s.queue != []
  {
    Admit(Goto(s, t, Handing(Swap(s.inflight))), t)
  }

  /** Inside the delegate: load the count, then the cap, then swap. */
  lemma DelegateSteps(d: Discipline, maxCap: nat, s: State, t: Tid)
    requires t in s.pc && (s.pc[t] == Fast(Load) || (s.pc[t] == Handing(Load) && s.queue != []))
    ensures var x := s.pc[t];
      var (read, swap) := (Goto(s, t, Within(x, ReadCap(s.inflight))), Goto(s, t, Within(x, Swap(s.inflight))));
      && Enabled(d, maxCap, s, LoadInflight(t)) && Apply(d, maxCap, s, LoadInflight(t)) == read
      && Enabled(d, maxCap, read, LoadCap(t))
      && Apply(d, maxCap, read, LoadCap(t)) == (if s.cap <= s.inflight then Refuse(read, t) else swap)
      && Enabled(d, maxCap, swap, SwapInflight(t, false))
      && Apply(d, maxCap, swap, SwapInflight(t, false)) == Admit(swap, t)
  {
    hide Admit, Refuse;
    var x := s.pc[t];
    GotoTwice(s, t, Within(x, ReadCap(s.inflight)), Within(x, Swap(s.inflight)));
  }

  /** ... which the delegate admits below the cap, and refuses at or above it. */
  lemma DelegateAdmits(d: Discipline, maxCap: nat, s: State, t: Tid, s': State)
    requires t in s.pc && (s.pc[t] == Fast(Load) || (s.pc[t] == Handing(Load) && s.queue != []))
    requires s.inflight < s.cap
    requires Solo(d, maxCap, t, Admit(Goto(s, t, Within(s.pc[t], Swap(s.inflight))), t), s')
    ensures Solo(d, maxCap, t, s, s')
  {
    hide Admit, Refuse, Enabled, Apply, Solo, Goto;
    var x := s.pc[t];
    var (read, swap) := (Goto(s, t, Within(x, ReadCap(s.inflight))), Goto(s, t, Within(x, Swap(s.inflight))));
    DelegateSteps(d, maxCap, s, t);
    SoloStep(d, maxCap, swap, SwapInflight(t, false), s');
    SoloStep(d, maxCap, read, LoadCap(t), s');
    SoloStep(d, maxCap, s, LoadInflight(t), s');
  }

  lemma DelegateRefuses(d: Discipline, maxCap: nat, s: State, t: Tid, s': State)
    requires t in s.pc && (s.pc[t] == Fast(Load) || (s.pc[t] == Handing(Load) && s.queue != []))
    requires s.cap <= s.inflight && Solo(d, maxCap, t, Refuse(Goto(s, t, Within(s.pc[t], ReadCap(s.inflight))), t), s')
    ensures Solo(d, maxCap, t, s, s')
  {
    hide Admit, Refuse, Enabled, Apply, Solo, Goto;
    var read := Goto(s, t, Within(s.pc[t], ReadCap(s.inflight)));
    DelegateSteps(d, maxCap, s, t);
    SoloStep(d, maxCap, read, LoadCap(t), s');
    SoloStep(d, maxCap, s, LoadInflight(t), s');
  }

  /** A round keeps the invariant and serves the head. */
  lemma RoundServes(d: Discipline, maxCap: nat, s: State, t: Tid)
    requires Inv(d, maxCap, s) && t in s.pc && s.pc[t] == Handing(Load) && s.queue != [] && s.inflight < s.cap
    ensures Inv(d, maxCap, Round(s, t))
    ensures Served(Stopped(s, t), Stopped(Round(s, t), t), 1)
  {
    var (read, swap) := (Goto(s, t, Handing(ReadCap(s.inflight))), Goto(s, t, Handing(Swap(s.inflight))));
    assert s.queue[0] in s.tickets && Slot(s.queue[0]) !in s.cells by {
      assert s.queue[0] in s.queue;
      AtHome(s, s.queue[0]);
    }
    DelegateSteps(d, maxCap, s, t);
    ServedOne(swap, t);
    GotoTwice(s, t, Handing(Swap(s.inflight)), Idle);
    hide Inv, Apply, Enabled, Served, Admit;
    StepKeeps(d, maxCap, s, LoadInflight(t));
    StepKeeps(d, maxCap, read, LoadCap(t));
    StepKeeps(d, maxCap, swap, SwapInflight(t, false));
  }

  lemma RoundGoesOn(s: State, t: Tid)
    requires t in s.pc && s.queue != []
    ensures var m := Round(s, t);
      && t in m.pc && m.queue == s.queue[1..] && m.inflight == s.inflight + 1 && m.cap == s.cap
      && if m.queue == [] then m == Stopped(m, t) else m.pc[t] == Handing(Load)
  {
    var m := Round(s, t);
    if m.queue == [] { GotoTwice(m, t, Idle, Idle); }
  }

  /** An uninterrupted hand-off serves as many waiters, from the head on, as the delegate has room for. */
  lemma {:induction false} HandOff(d: Discipline, maxCap: nat, s: State, t: Tid) returns (s': State)
    requires Inv(d, maxCap, s) && t in s.pc && s.pc[t] == Handing(Load) && s.queue != []
    ensures Solo(d, maxCap, t, s, s')
    ensures Served(Stopped(s, t), s', Admissible(|s.queue|, s.cap - s.inflight))
    decreases |s.queue|
  {
    hide Inv, Solo, Served, Round;
    if s.cap <= s.inflight {
      s' := Stopped(s, t);
      GotoTwice(s, t, Handing(ReadCap(s.inflight)), Idle);
      ServedNone(s');
      SoloSelf(d, maxCap, t, s');
      DelegateRefuses(d, maxCap, s, t, s');
    } else {
      var m := Round(s, t);
      RoundServes(d, maxCap, s, t);
      RoundGoesOn(s, t);
      if m.queue == [] {
        s' := m;
        SoloSelf(d, maxCap, t, m);
        ServedNone(m);
        assert Stopped(m, t) == m;
      } else {
        s' := HandOff(d, maxCap, m, t);
      }
      var k := Admissible(|m.queue|, m.cap - m.inflight);
      ServedMore(Stopped(s, t), Stopped(m, t), s', k);
      assert Admissible(|s.queue|, s.cap - s.inflight) == 1 + k;
      assert m == Admit(Goto(s, t, Within(s.pc[t], Swap(s.inflight))), t) by { RoundIs(s, t); }
      DelegateAdmits(d, maxCap, s, t, s');
    }
  }

  lemma RoundIs(s: State, t: Tid)
    requires t in s.pc && s.pc[t].Handing? && s.queue != []
    ensures Round(s, t) == Admit(Goto(s, t, Within(s.pc[t], Swap(s.inflight))), t)
  {
  }

  // ---------- Whole calls ----------

  /** Nobody is inside the mutex, and thread t is about to call. */
  ghost predicate Free(s: State, t: Tid) { s.lock == None && t in s.pc && s.pc[t].Idle? }

  /** The delegate has been told how the outer guard `id` completed, and nothing else has changed. */
  function GivenBack(s: State, id: SlotId, status: Status): State {
    s.(outer := s.outer - {id}, asked := Plus(s.asked, status), mirrored := Plus(s.mirrored, status),
       inflight := s.inflight - 1, cells := s.cells - {Active(id)})
  }

  lemma CompleteStep(d: Discipline, maxCap: nat, s: State, t: Tid, id: SlotId, status: Status)
    requires t in s.pc && s.pc[t].Idle? && id in s.outer
    ensures var s' := Goto(s, t, Completing(id, status)).(outer := s.outer - {id}, asked := Plus(s.asked, status));
      Enabled(d, maxCap, s, Complete(t, id, status)) && Apply(d, maxCap, s, Complete(t, id, status)) == s'
  {
  }

  lemma ExtractStep(d: Discipline, maxCap: nat, s: State, t: Tid, id: SlotId, status: Status)
    requires t in s.pc && s.pc[t] == Completing(id, status) && s.lock == None && Active(id) in s.cells
    ensures var s' := Goto(s, t, Extracted(status)).(
                        cells := BlockingInterleaving.Moved(s.cells, Active(id), Local(t)));
      Enabled(d, maxCap, s, Extract(t)) && Apply(d, maxCap, s, Extract(t)) == s'
  {
  }

  lemma MirrorStep(d: Discipline, maxCap: nat, s: State, t: Tid, status: Status)
    requires t in s.pc && s.pc[t] == Extracted(status)
    ensures var s' := Goto(s, t, Released).(inflight := s.inflight - 1, cells := s.cells - {Local(t)},
                                            mirrored := Plus(s.mirrored, status));
      Enabled(d, maxCap, s, Mirror(t)) && Apply(d, maxCap, s, Mirror(t)) == s'
  {
  }

  lemma MovedAndGone(cells: map<Place, Token>, from: Place, via: Place)
    requires from in cells && via !in cells
    ensures BlockingInterleaving.Moved(cells, from, via) - {via} == cells - {from}
  {
  }

  /** An uninterrupted completion finds its inner guard and mirrors its status. */
  lemma SoloMirror(d: Discipline, maxCap: nat, s: State, t: Tid, id: SlotId, status: Status, s': State)
    requires CellsInv(s) && IdsInv(s) && Free(s, t) && id in s.outer
    requires Solo(d, maxCap, t, Goto(GivenBack(s, id, status), t, Released), s')
    ensures Solo(d, maxCap, t, s, s')
  {
    hide CellsInv, IdsInv, Solo, Plus, Apply, Enabled, BlockingInterleaving.Moved;
    assert Local(t) !in s.cells by { AtHome(s, t); }
    OuterRegistered(s, id);
    MovedAndGone(s.cells, Active(id), Local(t));
    CompleteStep(d, maxCap, s, t, id, status);
    var s1 := Apply(d, maxCap, s, Complete(t, id, status));
    ExtractStep(d, maxCap, s1, t, id, status);
    var s2 := Apply(d, maxCap, s1, Extract(t));
    MirrorStep(d, maxCap, s2, t, status);
    var s3 := Apply(d, maxCap, s2, Mirror(t));
    assert s3.pc == s.pc[t := Released];
    assert s3 == Goto(GivenBack(s, id, status), t, Released);
    SoloStep(d, maxCap, s2, Mirror(t), s');
    SoloStep(d, maxCap, s1, Extract(t), s');
    SoloStep(d, maxCap, s, Complete(t, id, status), s');
  }

  lemma OuterRegistered(s: State, id: SlotId)
    requires IdsInv(s) && id in s.outer
    ensures Active(id) in s.cells
  {
  }

  lemma SoloKeeps(d: Discipline, maxCap: nat, t: Tid, s: State, s': State)
    requires Inv(d, maxCap, s) && Solo(d, maxCap, t, s, s')
    ensures Inv(d, maxCap, s')
  {
    var actions :| LegalRun(d, maxCap, s, actions) && Execute(d, maxCap, s, actions) == s' && OnlyBy(t, actions);
    hide Inv, LegalRun, Execute;
    RunKeeps(d, maxCap, s, actions);
  }

  lemma MirrorKeeps(d: Discipline, maxCap: nat, s: State, t: Tid, id: SlotId, status: Status)
    requires Inv(d, maxCap, s) && Free(s, t) && id in s.outer
    ensures Inv(d, maxCap, Goto(GivenBack(s, id, status), t, Released))
  {
    InvParts(d, maxCap, s);
    hide Inv, Solo, CellsInv, IdsInv, GivenBack;
    var s' := Goto(GivenBack(s, id, status), t, Released);
    SoloSelf(d, maxCap, t, s');
    SoloMirror(d, maxCap, s, t, id, status, s');
    SoloKeeps(d, maxCap, t, s, s');
  }

  lemma StartsHandOff(d: Discipline, maxCap: nat, s: State, t: Tid, s': State)
    requires t in s.pc && s.pc[t].Released? && s.lock == None
    requires s.queue == [] ==> s' == Goto(s, t, Idle)
    requires s.queue != [] ==> Solo(d, maxCap, t, Goto(s, t, Handing(Load)).(lock := Some(t)), s')
    ensures Solo(d, maxCap, t, s, s')
  {
    if s.queue == [] { SoloSelf(d, maxCap, t, s'); }
    hide Solo;
    SoloStep(d, maxCap, s, Unblock(t), s');
  }

  /** An uninterrupted completion of an outer guard frees its slot under the given status and serves
      exactly the waiters, from the queue's head on, that the delegate then has room for. */
  lemma SoloRelease(d: Discipline, maxCap: nat, s: State, t: Tid, id: SlotId, status: Status)
    requires Inv(d, maxCap, s) && Free(s, t) && id in s.outer
    ensures var k := Admissible(|s.queue|, s.cap - (s.inflight - 1));
      exists s' :: Solo(d, maxCap, t, s, s') && Served(GivenBack(s, id, status), s', k)
  {
    hide Inv, Solo, Served, Plus, CellsInv, IdsInv;
    var back := GivenBack(s, id, status);
    var r := Goto(back, t, Released);
    MirrorKeeps(d, maxCap, s, t, id, status);
    GotoTwice(back, t, Released, Idle);
    var s';
    if s.queue == [] {
      s' := back;
      ServedNone(back);
    } else {
      var h := Goto(r, t, Handing(Load)).(lock := Some(t));
      assert h == Apply(d, maxCap, r, Unblock(t));
      StepKeeps(d, maxCap, r, Unblock(t));
      s' := HandOff(d, maxCap, h, t);
      GotoTwice(r, t, Handing(Load), Idle);
      assert Stopped(h, t) == back;
    }
    StartsHandOff(d, maxCap, r, t, s');
    assert CellsInv(s) && IdsInv(s) by { InvParts(d, maxCap, s); }
    SoloMirror(d, maxCap, s, t, id, status, s');
  }

  lemma InvParts(d: Discipline, maxCap: nat, s: State)
    requires Inv(d, maxCap, s)
    ensures CellsInv(s) && IdsInv(s)
  {
  }

  /** One more outer guard, under the next number. */
  function Granted(s: State): State {
    s.(inflight := s.inflight + 1, nextToken := s.nextToken + 1, nextId := s.nextId + 1,
       outer := s.outer + {s.nextId}, cells := s.cells[Active(s.nextId) := s.nextToken])
  }

  /** The guard at a place has become the outer guard with the next number, and t is idle. */
  function Numbered(s: State, t: Tid, from: Place): State
    requires from in s.cells
  {
    Goto(s, t, Idle).(nextId := s.nextId + 1, outer := s.outer + {s.nextId},
                      cells := BlockingInterleaving.Moved(s.cells, from, Active(s.nextId)))
  }

  lemma RegisterSteps(d: Discipline, maxCap: nat, s: State, t: Tid)
    requires t in s.pc && s.pc[t].Got? && Local(t) in s.cells && Active(s.nextId) !in s.cells && s.lock == None
    ensures var s1 := Goto(s, t, Pc.Numbered(s.nextId)).(nextId := s.nextId + 1);
      && Enabled(d, maxCap, s, TakeId(t)) && Apply(d, maxCap, s, TakeId(t)) == s1
      && Enabled(d, maxCap, s1, Register(t)) && Apply(d, maxCap, s1, Register(t)) == Numbered(s, t, Local(t))
  {
    hide BlockingInterleaving.Moved;
    GotoTwice(s, t, Pc.Numbered(s.nextId), Idle);
  }

  /** A guard in a local variable is registered under the next number. */
  lemma SoloRegister(d: Discipline, maxCap: nat, s: State, t: Tid)
    requires t in s.pc && s.pc[t].Got? && Local(t) in s.cells && Active(s.nextId) !in s.cells && s.lock == None
    ensures Solo(d, maxCap, t, s, Numbered(s, t, Local(t)))
  {
    hide Solo, Apply, Enabled, Numbered;
    RegisterSteps(d, maxCap, s, t);
    SoloSelf(d, maxCap, t, Numbered(s, t, Local(t)));
    SoloStep(d, maxCap, Apply(d, maxCap, s, TakeId(t)), Register(t), Numbered(s, t, Local(t)));
    SoloStep(d, maxCap, s, TakeId(t), Numbered(s, t, Local(t)));
  }

  lemma FreshNumber(s: State)
    requires IdsInv(s)
    ensures Active(s.nextId) !in s.cells
  {
  }

  /** What the fast path has in hand, and what registering it gives. */
  lemma FastAdmits(s: State, t: Tid)
    requires t in s.pc && s.pc[t].Idle? && Local(t) !in s.cells && Active(s.nextId) !in s.cells
    ensures var m := Admit(Goto(s, t, Fast(Swap(s.inflight))), t);
      && t in m.pc && m.pc[t].Got? && Local(t) in m.cells && Active(m.nextId) !in m.cells && m.lock == s.lock
      && Numbered(m, t, Local(t)) == Granted(s)
  {
    var m := Admit(Goto(s, t, Fast(Swap(s.inflight))), t);
    assert Numbered(m, t, Local(t)).pc == s.pc;
    assert m.cells == s.cells[Local(t) := s.nextToken];
    assert BlockingInterleaving.Moved(m.cells, Local(t), Active(m.nextId)) == s.cells[Active(s.nextId) := s.nextToken];
  }

  lemma EntersFast(d: Discipline, maxCap: nat, s: State, t: Tid)
    requires t in s.pc && s.pc[t].Idle?
    ensures Enabled(d, maxCap, s, TryAcquire(t))
    ensures Apply(d, maxCap, s, TryAcquire(t)) == Goto(s, t, Fast(Load))
  {
  }

  /** An uninterrupted acquire below the cap takes the fast path: it is admitted and registered,
      whoever is queued. */
  lemma SoloAcquire(d: Discipline, maxCap: nat, s: State, t: Tid)
    requires Inv(d, maxCap, s) && Free(s, t) && s.inflight < s.cap
    ensures Solo(d, maxCap, t, s, Granted(s))
  {
    assert Local(t) !in s.cells by { AtHome(s, t); }
    FreshNumber(s);
    hide Inv, Solo, Apply, Enabled, Admit, Granted, Numbered;
    var s1 := Goto(s, t, Fast(Load));
    GotoTwice(s, t, Fast(Load), Fast(Swap(s.inflight)));
    var m := Admit(Goto(s, t, Fast(Swap(s.inflight))), t);
    FastAdmits(s, t);
    SoloRegister(d, maxCap, m, t);
    DelegateAdmits(d, maxCap, s1, t, Granted(s));
    EntersFast(d, maxCap, s, t);
    SoloStep(d, maxCap, s, TryAcquire(t), Granted(s));
  }

  /** Thread t has parked: at the back, or at the front of a backlog. */
  function Queued(d: Discipline, s: State, t: Tid): State {
    Goto(s, t, Parked).(queue := if d.Fifo? then s.queue + [t] else [t] + s.queue, ready := s.ready - {t},
                        tickets := s.tickets[t := s.nextTicket], nextTicket := s.nextTicket + 1)
  }

  /** An acquire that finds the delegate full is refused, and has not parked yet. */
  lemma SoloTurn(d: Discipline, maxCap: nat, s: State, t: Tid, s': State)
    requires t in s.pc && s.pc[t].Idle? && s.cap <= s.inflight
    requires Solo(d, maxCap, t, Goto(s, t, Turned), s')
    ensures Solo(d, maxCap, t, s, s')
  {
    hide Solo, Apply, Enabled;
    GotoTwice(s, t, Fast(Load), Fast(ReadCap(s.inflight)));
    GotoTwice(s, t, Fast(ReadCap(s.inflight)), Turned);
    DelegateRefuses(d, maxCap, Goto(s, t, Fast(Load)), t, s');
    EntersFast(d, maxCap, s, t);
    SoloStep(d, maxCap, s, TryAcquire(t), s');
  }

  lemma ParkStep(d: Discipline, maxCap: nat, s: State, t: Tid)
    requires Free(s, t)
    ensures var m := Goto(s, t, Turned);
      && Enabled(d, maxCap, m, Park(t))
      && Apply(d, maxCap, m, Park(t)) == if d.Lifo? && d.backlog <= |s.queue| then s else Queued(d, s, t)
  {
    GotoTwice(s, t, Turned, Idle);
    GotoTwice(s, t, Turned, Parked);
  }

  /** An uninterrupted acquire at or above the cap parks; only a full backlog turns it away, and then
      nothing has changed. */
  lemma SoloPark(d: Discipline, maxCap: nat, s: State, t: Tid)
    requires Free(s, t) && s.cap <= s.inflight
    ensures Solo(d, maxCap, t, s, if d.Lifo? && d.backlog <= |s.queue| then s else Queued(d, s, t))
  {
    hide Solo, Apply, Enabled, Queued;
    var m := Goto(s, t, Turned);
    ParkStep(d, maxCap, s, t);
    var s' := Apply(d, maxCap, m, Park(t));
    SoloSelf(d, maxCap, t, s');
    SoloStep(d, maxCap, m, Park(t), s');
    SoloTurn(d, maxCap, s, t, s');
  }

  /** A waiter's two ways out of its wait. */
  predicate Wakes(a: Action, t: Tid) { a == Notified(t) || a == TimeOut(t) }

  lemma TakesSlot(d: Discipline, maxCap: nat, s: State, t: Tid)
    requires Home(s, t) && s.lock == None && t in s.pc && s.pc[t].Checking? && Slot(t) in s.cells
    requires Active(s.nextId) !in s.cells
    ensures Enabled(d, maxCap, s, Check(t))
    ensures var m := Apply(d, maxCap, s, Check(t));
      && t in m.pc && m.pc[t].Got? && Local(t) in m.cells && Active(m.nextId) !in m.cells && m.lock == None
      && Numbered(m, t, Local(t)) == Numbered(s, t, Slot(t))
  {
    hide Erased;
    var m := Apply(d, maxCap, s, Check(t));
    GotoTwice(s, t, Got, Idle);
    assert BlockingInterleaving.Moved(m.cells, Local(t), Active(s.nextId))
      == BlockingInterleaving.Moved(s.cells, Slot(t), Active(s.nextId));
  }

  lemma WakeStep(d: Discipline, maxCap: nat, s: State, t: Tid, a: Action)
    requires t in s.pc && s.pc[t].Parked? && Wakes(a, t) && (a.Notified? ==> t in s.ready)
    ensures Enabled(d, maxCap, s, a) && Apply(d, maxCap, s, a) == Goto(s, t, Checking)
  {
  }

  /** A waiter that has been handed a slot registers it, whether it was woken or timed out. */
  lemma SoloCollect(d: Discipline, maxCap: nat, s: State, t: Tid, a: Action)
    requires Inv(d, maxCap, s) && s.lock == None && t in s.pc && s.pc[t].Parked? && Slot(t) in s.cells
    requires Wakes(a, t)
    ensures Enabled(d, maxCap, s, a)
    ensures Solo(d, maxCap, t, Apply(d, maxCap, s, a), Numbered(s, t, Slot(t)))
  {
    FreshNumber(s);
    AtHome(s, t);
    hide Inv, Solo, Apply, Enabled, Numbered;
    assert t in s.ready by { HandedIsReady(d, maxCap, s, t); }
    WakeStep(d, maxCap, s, t, a);
    var s1 := Goto(s, t, Checking);
    TakesSlot(d, maxCap, s1, t);
    NumberedFrom(s, t);
    var m := Apply(d, maxCap, s1, Check(t));
    SoloRegister(d, maxCap, m, t);
    SoloStep(d, maxCap, s1, Check(t), Numbered(s, t, Slot(t)));
  }

  lemma NumberedFrom(s: State, t: Tid)
    requires Slot(t) in s.cells
    ensures Numbered(Goto(s, t, Checking), t, Slot(t)) == Numbered(s, t, Slot(t))
  {
    GotoTwice(s, t, Checking, Idle);
  }

  lemma HandedIsReady(d: Discipline, maxCap: nat, s: State, t: Tid)
    requires Inv(d, maxCap, s) && t in s.pc && s.pc[t].Parked? && Slot(t) in s.cells
    ensures t in s.ready
  {
  }

  /** A waiter that times out before it was served leaves the queue without a guard; it cannot have
      been notified. */
  lemma SoloGiveUp(d: Discipline, maxCap: nat, s: State, t: Tid)
    requires Inv(d, maxCap, s) && s.lock == None && t in s.pc && s.pc[t].Parked? && Slot(t) !in s.cells
    ensures !Enabled(d, maxCap, s, Notified(t))
    ensures Solo(d, maxCap, t, s, Goto(s, t, Idle).(queue := Erased(d, s.queue, t)))
  {
    hide Solo, Erased, CellsInv, IdsInv, OwnedInv, TokensInv, LockInv, CapInv, OrderInv, ServedInv, MirrorInv,
         AdmissionsInv;
    var s1 := Goto(s, t, Checking);
    WakeStep(d, maxCap, s, t, TimeOut(t));
    var s' := Apply(d, maxCap, s1, Check(t));
    GotoTwice(s, t, Checking, Idle);
    SoloSelf(d, maxCap, t, s');
    SoloStep(d, maxCap, s1, Check(t), s');
    SoloStep(d, maxCap, s, TimeOut(t), s');
  }

  // ---------- The calls as the limiter's callers see them ----------

  /** In-flight at the delegate, how many wait, and the numbers registered. */
  datatype Books = Books(inflight: int, waiting: nat, registered: set<SlotId>)

  function NumbersIn(cells: map<Place, Token>): set<SlotId> { set p | p in cells && p.Active? :: p.id }

  function BooksOf(s: State): Books { Books(s.inflight, |s.queue|, NumbersIn(s.cells)) }

  /** The fast path under a cap: one more guard under the next number, or nothing. */
  function Acquired(b: Books, next: SlotId, cap: int): Books {
    if b.inflight < cap then b.(inflight := b.inflight + 1, registered := b.registered + {next}) else b
  }

  /** A completion under a cap: the slot is given back and as many waiters as there is room for are
      taken off the queue. */
  function Completed(b: Books, id: SlotId, cap: int): Books {
    var inflight := if id in b.registered then b.inflight - 1 else b.inflight;
    var k := Admissible(b.waiting, cap - inflight);
    Books(inflight + k, b.waiting - k, b.registered - {id})
  }

  lemma NumbersAfterServing(s: State, s': State, k: nat)
    requires Served(s, s', k)
    ensures NumbersIn(s'.cells) == NumbersIn(s.cells)
  {
    var q := s.queue[..k];
    forall p | p in s'.cells && p.Active?
      ensures p in s.cells
    {
      assert p in s.cells.Keys + SlotsOf(q);
    }
  }

  lemma BooksAfterRelease(s: State, id: SlotId, status: Status, s': State)
    requires IdsInv(s) && id in s.outer
    requires Served(GivenBack(s, id, status), s', Admissible(|s.queue|, s.cap - (s.inflight - 1)))
    ensures BooksOf(s') == Completed(BooksOf(s), id, s.cap)
  {
    var k := Admissible(|s.queue|, s.cap - (s.inflight - 1));
    NumbersAfterServing(GivenBack(s, id, status), s', k);
    OuterRegistered(s, id);
    assert id in NumbersIn(s.cells) by { assert Active(id) in s.cells; }
    assert NumbersIn(s.cells - {Active(id)}) == NumbersIn(s.cells) - {id};
  }

  /** In every reachable state with the mutex free, some thread's completing an outer guard alone is a
      run that ends as one call of the limiter does: the guard's slot is free, exactly the waiters
      at the head that the delegate has room for are served, and nobody is left whom it would
      admit. */
  lemma ReleaseIsAnUninterruptedCall(d: Discipline, maxCap: nat, start: State, actions: seq<Action>, t: Tid,
      id: SlotId, status: Status)
    requires Initial(maxCap, start) && LegalRun(d, maxCap, start, actions)
    requires Free(Execute(d, maxCap, start, actions), t) && id in Execute(d, maxCap, start, actions).outer
    ensures var s := Execute(d, maxCap, start, actions);
      var k := Admissible(|s.queue|, s.cap - (s.inflight - 1));
      exists s' ::
        && Solo(d, maxCap, t, s, s') && Served(GivenBack(s, id, status), s', k)
        && BooksOf(s') == Completed(BooksOf(s), id, s.cap)
        && (s'.queue == [] || s.cap <= s'.inflight) && (s'.queue != s.queue ==> s'.inflight <= s.cap)
  {
    hide Execute, LegalRun, Initial, Inv, Solo, Served, Completed, BooksOf;
    BlockingRuns.Reached(d, maxCap, start, actions);
    var s := Execute(d, maxCap, start, actions);
    var k := Admissible(|s.queue|, s.cap - (s.inflight - 1));
    SoloRelease(d, maxCap, s, t, id, status);
    var s' :| Solo(d, maxCap, t, s, s') && Served(GivenBack(s, id, status), s', k);
    InvParts(d, maxCap, s);
    BooksAfterRelease(s, id, status, s');
    ServedCounts(GivenBack(s, id, status), s', k);
  }

  lemma ServedCounts(s: State, s': State, k: nat)
    requires Served(s, s', k)
    ensures k <= |s.queue| && s'.inflight == s.inflight + k && s'.queue == s.queue[k..]
  {
  }

  /** In every reachable state with the mutex free, some thread's acquiring alone is a run that ends as
      one call does: below the cap with a registered guard, and otherwise parked, or turned away by
      a full backlog with nothing changed. */
  lemma AcquireIsAnUninterruptedCall(d: Discipline, maxCap: nat, start: State, actions: seq<Action>, t: Tid)
    requires Initial(maxCap, start) && LegalRun(d, maxCap, start, actions)
    requires Free(Execute(d, maxCap, start, actions), t)
    ensures var s := Execute(d, maxCap, start, actions);
      && (s.inflight < s.cap ==>
            && Solo(d, maxCap, t, s, Granted(s))
            && BooksOf(Granted(s)) == Acquired(BooksOf(s), s.nextId, s.cap))
      && (s.cap <= s.inflight ==>
            && Acquired(BooksOf(s), s.nextId, s.cap) == BooksOf(s)
            && Solo(d, maxCap, t, s, if d.Lifo? && d.backlog <= |s.queue| then s else Queued(d, s, t)))
  {
    hide Execute, LegalRun, Initial, Inv, Solo, NumbersIn;
    BlockingRuns.Reached(d, maxCap, start, actions);
    var s := Execute(d, maxCap, start, actions);
    if s.inflight < s.cap {
      SoloAcquire(d, maxCap, s, t);
      NumbersAfterGrant(s);
    } else {
      SoloPark(d, maxCap, s, t);
    }
  }

  lemma NumbersAfterGrant(s: State)
    ensures NumbersIn(Granted(s).cells) == NumbersIn(s.cells) + {s.nextId}
  {
    forall id | id in NumbersIn(s.cells) + {s.nextId}
      ensures id in NumbersIn(Granted(s).cells)
    {
      assert Active(id) in Granted(s).cells;
    }
  }

  // ---------- The cap ----------

  function LastCap(cap: int, actions: seq<Action>): int
    decreases |actions|
  {
    if actions == [] then cap
    else LastCap(if actions[0].StoreCap? then actions[0].c else cap, actions[1..])
  }

  /** The cap in force is the one stored last; no call changes it. */
  lemma {:induction false} CapIsLastStored(d: Discipline, maxCap: nat, s: State, actions: seq<Action>)
    requires LegalRun(d, maxCap, s, actions)
    ensures Execute(d, maxCap, s, actions).cap == LastCap(s.cap, actions)
    decreases |actions|
  {
    hide Apply, Enabled;
    if actions != [] {
      if actions[0].StoreCap? {
        ApplyStoreCap(d, maxCap, s, actions[0].c);
      } else {
        Frame(d, maxCap, s, actions[0]);
      }
      CapIsLastStored(d, maxCap, Apply(d, maxCap, s, actions[0]), actions[1..]);
    }
  }
}
