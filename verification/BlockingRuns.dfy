/** What every run of the blocking limiters guarantees. */
module BlockingRuns {
  import opened Counting
  import opened Guards
  import opened BlockingInterleaving
  import opened BlockingInvariant

  // ---------- Conservation ----------

  lemma Reached(d: Discipline, maxCap: nat, s: State, actions: seq<Action>)
    requires Initial(maxCap, s) && LegalRun(d, maxCap, s, actions)
    ensures Inv(d, maxCap, Execute(d, maxCap, s, actions))
  {
    hide Inv, Execute, LegalRun, Initial;
    InitialHolds(d, maxCap, s);
    RunKeeps(d, maxCap, s, actions);
  }

  function Entries(ids: set<SlotId>): set<Place> { set id | id in ids :: Active(id) }

  lemma {:induction false} EntriesSize(ids: set<SlotId>)
    ensures |Entries(ids)| == |ids|
  {
    if ids == {} {
      assert Entries(ids) == {};
    } else {
      var id :| id in ids;
      EntriesSize(ids - {id});
      assert Entries(ids) == Entries(ids - {id}) + {Active(id)};
    }
  }

  /** In every interleaving the delegate's in-flight count is the number of delegate guards, each
      guard is in exactly one cell, and a cell is full only where the owning thread's code knows it:
      a local variable, a live waiter that is no longer queued, or a registered entry whose outer
      guard is held or just completing. Callers never hold more outer guards than the cap allows, and
      the delegate's admissions are its live guards plus its completions of each status. */
  lemma Conservation(d: Discipline, maxCap: nat, s: State, actions: seq<Action>)
    requires Initial(maxCap, s) && LegalRun(d, maxCap, s, actions)
    ensures var s' := Execute(d, maxCap, s, actions);
      && s'.inflight == |s'.cells|
      && (forall p, q | p in s'.cells && q in s'.cells && p != q :: s'.cells[p] != s'.cells[q])
      && (forall t: Tid :: Home(s', t))
      && (forall id: SlotId | Active(id) in s'.cells :: id in s'.outer || exists t :: Completes(s', t, id))
      && (forall id | id in s'.outer :: Active(id) in s'.cells)
      && |s'.outer| <= s'.inflight <= maxCap
      && s'.nextToken == s'.inflight + Total(s'.mirrored)
  {
    hide Execute, LegalRun, Initial;
    Reached(d, maxCap, s, actions);
    OuterWithinCap(d, maxCap, Execute(d, maxCap, s, actions));
  }

  lemma OuterWithinCap(d: Discipline, maxCap: nat, s: State)
    requires Inv(d, maxCap, s)
    ensures |s.outer| <= s.inflight <= maxCap
  {
    EntriesSize(s.outer);
    assert Entries(s.outer) <= s.cells.Keys;
    SubsetSize(Entries(s.outer), s.cells.Keys);
    assert |s.cells.Keys| == |s.cells|;
  }

  /** Once no call is under way, in-flight is exactly the outer guards held, every completion has
      been mirrored onto the delegate with its status, nobody is queued, and the delegate's admissions
      are the outer guards held plus the completions of each status. */
  lemma Quiescence(d: Discipline, maxCap: nat, s: State, actions: seq<Action>)
    requires Initial(maxCap, s) && LegalRun(d, maxCap, s, actions)
    requires forall t | t in Execute(d, maxCap, s, actions).pc :: Execute(d, maxCap, s, actions).pc[t].Idle?
    ensures var s' := Execute(d, maxCap, s, actions);
      && s'.inflight == |s'.outer| && s'.queue == [] && s'.asked == s'.mirrored
      && s'.nextToken == |s'.outer| + Total(s'.asked)
      && (s'.outer == {} ==> s'.inflight == 0 && s'.cells == map[])
  {
    hide Execute, LegalRun, Initial, Inv;
    Reached(d, maxCap, s, actions);
    QuietState(d, maxCap, Execute(d, maxCap, s, actions));
  }

  lemma SomebodyQueued(q: seq<Tid>)
    ensures q == [] || exists t: Tid :: t in q
  {
    if q != [] {
      assert q[0] in q;
    }
  }

  lemma QuietState(d: Discipline, maxCap: nat, s: State)
    requires Inv(d, maxCap, s) && forall t | t in s.pc :: s.pc[t].Idle?
    ensures s.inflight == |s.outer| && s.queue == [] && s.asked == s.mirrored
    ensures s.nextToken == s.inflight + Total(s.mirrored)
    ensures s.outer == {} ==> s.inflight == 0 && s.cells == map[]
  {
    hide LockInv, ReadyInv, CapInv, OrderInv, ServedInv;
    forall t: Tid
      ensures Local(t) !in s.cells && Slot(t) !in s.cells && t !in s.queue
    {
      assert Home(s, t);
    }
    assert forall t, id :: !Completes(s, t, id);
    SomebodyQueued(s.queue);
    assert forall p | p in s.cells :: p.Active?;
    assert s.cells.Keys == Entries(s.outer);
    EntriesSize(s.outer);
    assert |s.cells.Keys| == |s.cells|;
    CountNone(s.pc, Owes(Success));
    CountNone(s.pc, Owes(Ignored));
    CountNone(s.pc, Owes(Dropped));
    assert Of(s.asked, Success) == Of(s.mirrored, Success) + Count(s.pc, Owes(Success));
    assert Of(s.asked, Ignored) == Of(s.mirrored, Ignored) + Count(s.pc, Owes(Ignored));
    assert Of(s.asked, Dropped) == Of(s.mirrored, Dropped) + Count(s.pc, Owes(Dropped));
  }

  // ---------- The timeout race ----------

  /** A waiter that looks under the mutex, notified or timed out, finds either a slot handed to it,
      which it takes, or itself still queued, exactly once, and leaves; either way the queue no
      longer points to it and no guard was lost. */
  lemma TimeoutRace(d: Discipline, maxCap: nat, s: State, actions: seq<Action>, t: Tid)
    requires Initial(maxCap, s) && LegalRun(d, maxCap, s, actions)
    requires Enabled(d, maxCap, Execute(d, maxCap, s, actions), Check(t))
    ensures var before := Execute(d, maxCap, s, actions);
      var after := Apply(d, maxCap, before, Check(t));
      && t !in after.queue
      && after.inflight == before.inflight
      && (Slot(t) in before.cells <==> t !in before.queue)
      && (Slot(t) in before.cells ==>
            after.queue == before.queue && after.pc[t] == Got
            && after.cells == Moved(before.cells, Slot(t), Local(t)))
      && (Slot(t) !in before.cells ==>
            after.pc[t].Idle? && after.cells == before.cells
            && forall u :: u in after.queue <==> u in before.queue && u != t)
  {
    Reached(d, maxCap, s, actions);
    var before := Execute(d, maxCap, s, actions);
    assert Home(before, t) && Distinct(before.queue);
    hide Inv, Execute, LegalRun, Erased;
    ErasedRemoves(d, before.queue, t);
  }

  /** A waiter woken by its notification always finds a slot; one that has been handed a slot has
      always been notified. */
  lemma NotifiedMeansHandedOver(d: Discipline, maxCap: nat, s: State, actions: seq<Action>, t: Tid)
    requires Initial(maxCap, s) && LegalRun(d, maxCap, s, actions)
    requires t in s.pc && t in Execute(d, maxCap, s, actions).pc && Execute(d, maxCap, s, actions).pc[t].Parked?
    ensures var s' := Execute(d, maxCap, s, actions);
      (t in s'.ready <==> Slot(t) in s'.cells) && (t in s'.ready <==> t !in s'.queue)
  {
    hide Execute, LegalRun, Initial;
    Reached(d, maxCap, s, actions);
    assert Home(Execute(d, maxCap, s, actions), t);
  }

  // ---------- Service order ----------

  /** The queue is exactly the live waiters without a slot, each once, and stays in its backlog. */
  lemma QueueIsTheWaiters(d: Discipline, maxCap: nat, s: State, actions: seq<Action>)
    requires Initial(maxCap, s) && LegalRun(d, maxCap, s, actions)
    ensures var s' := Execute(d, maxCap, s, actions);
      && (forall t: Tid :: t in s'.queue <==> t in s'.pc && Waiting(s'.pc[t]) && Slot(t) !in s'.cells)
      && Distinct(s'.queue)
      && (d.Lifo? ==> |s'.queue| <= d.backlog)
  {
    hide Execute, LegalRun, Initial;
    Reached(d, maxCap, s, actions);
    var s' := Execute(d, maxCap, s, actions);
    forall t: Tid
      ensures t in s'.queue <==> t in s'.pc && Waiting(s'.pc[t]) && Slot(t) !in s'.cells
    {
      assert Home(s', t);
    }
  }

  /** A step that hands a slot over: it takes the queue's head off. */
  ghost predicate HandsOver(d: Discipline, maxCap: nat, s: State, a: Action) {
    Enabled(d, maxCap, s, a) && a.SwapInflight? && Apply(d, maxCap, s, a).queue != s.queue
  }

  /** What a hand-off does to the queue's head. */
  ghost predicate ServesHead(s: State, after: State, t: Tid) {
    && s.queue != [] && t in s.pc && s.pc[t].Handing?
    && var head := s.queue[0];
    && head in s.tickets && after.served == s.served + [s.tickets[head]]
    && Slot(head) !in s.cells && Slot(head) in after.cells && head in after.ready
  }

  lemma HeadIsServed(d: Discipline, maxCap: nat, s: State, a: Action)
    requires CellsInv(s) && OrderInv(d, s) && HandsOver(d, maxCap, s, a)
    ensures ServesHead(s, Apply(d, maxCap, s, a), a.t)
  {
    var head := s.queue[0];
    assert head in s.queue;
    assert Home(s, head);
  }

  /** The waiter that comes before every other live waiter without a slot. */
  ghost predicate FirstInOrder(d: Discipline, s: State, head: Tid) {
    forall t | t in s.pc && Waiting(s.pc[t]) && Slot(t) !in s.cells && t != head ::
      InOrder(d, TicketOf(s, head), TicketOf(s, t))
  }

  lemma HeadIsFirst(d: Discipline, s: State)
    requires CellsInv(s) && OrderInv(d, s) && s.queue != []
    ensures FirstInOrder(d, s, s.queue[0])
  {
    hide CellsInv, InOrder;
    var head := s.queue[0];
    forall t | t in s.pc && Waiting(s.pc[t]) && Slot(t) !in s.cells && t != head
      ensures InOrder(d, TicketOf(s, head), TicketOf(s, t))
    {
      AtHome(s, t);
      var j :| 0 <= j < |s.queue| && s.queue[j] == t;
      assert 0 < j;
    }
  }

  /** Each hand-off serves, of all live waiters without a slot, the one parked longest (first in,
      first out) or most recently (last in, first out). */
  lemma ServiceOrder(d: Discipline, maxCap: nat, s: State, actions: seq<Action>, a: Action)
    requires Initial(maxCap, s) && LegalRun(d, maxCap, s, actions)
    requires HandsOver(d, maxCap, Execute(d, maxCap, s, actions), a)
    ensures var s' := Execute(d, maxCap, s, actions);
      ServesHead(s', Apply(d, maxCap, s', a), a.t) && FirstInOrder(d, s', s'.queue[0])
  {
    hide HandsOver, Apply, Execute, LegalRun, Initial, CellsInv, OrderInv, FirstInOrder;
    Reached(d, maxCap, s, actions);
    var s' := Execute(d, maxCap, s, actions);
    HeadIsServed(d, maxCap, s', a);
    HeadIsFirst(d, s');
  }

  /** Over a whole run the first-in-first-out limiter serves tickets in the order they were drawn. */
  lemma ServedInParkingOrder(maxCap: nat, s: State, actions: seq<Action>)
    requires Initial(maxCap, s) && LegalRun(Fifo, maxCap, s, actions)
    ensures var served := Execute(Fifo, maxCap, s, actions).served;
      forall i, j | 0 <= i < j < |served| :: served[i] < served[j]
  {
    hide Execute, LegalRun, Initial;
    Reached(Fifo, maxCap, s, actions);
  }

  /** While a hand-off holds the mutex, nobody else changes the queue and it only takes the head off;
      it gives the mutex up only when the queue is empty or the delegate has just refused the queue's head on a
      count at or above the cap. */
  ghost predicate HoldsUntilDone(s: State, after: State, a: Action)
    requires s.lock.Some?
  {
    var holder := s.lock.value;
    && holder in s.pc && s.pc[holder].Handing? && s.queue != []
    && (after.queue != s.queue ==> !a.StoreCap? && a.t == holder && after.queue == s.queue[1..])
    && (after.lock != s.lock ==>
          && !a.StoreCap? && a.t == holder && after.lock == None
          && (after.queue == []
              || (after.queue == s.queue && a.LoadCap?
                  && s.pc[holder].cas.ReadCap? && s.cap <= s.pc[holder].cas.cur)))
  }

  lemma HolderHandsOff(d: Discipline, maxCap: nat, s: State, a: Action)
    requires LockInv(s) && s.lock.Some? && Enabled(d, maxCap, s, a)
    ensures HoldsUntilDone(s, Apply(d, maxCap, s, a), a)
  {
    hide Erased, Distinct;
    assert s.lock == Some(s.lock.value);
  }

  lemma HandOffEnds(d: Discipline, maxCap: nat, s: State, actions: seq<Action>, a: Action)
    requires Initial(maxCap, s) && LegalRun(d, maxCap, s, actions)
    requires Execute(d, maxCap, s, actions).lock.Some? && Enabled(d, maxCap, Execute(d, maxCap, s, actions), a)
    ensures var s' := Execute(d, maxCap, s, actions);
      HoldsUntilDone(s', Apply(d, maxCap, s', a), a)
  {
    hide Enabled, Apply, Execute, LegalRun, Initial, LockInv, HoldsUntilDone;
    Reached(d, maxCap, s, actions);
    HolderHandsOff(d, maxCap, Execute(d, maxCap, s, actions), a);
  }
}
