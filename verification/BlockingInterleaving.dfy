/** Every interleaving of the two blocking limiters over a simple limiter
    (src/blocking_limiter.cc, src/lifo_blocking_limiter.cc, src/simple_limiter.cc). One access to an
    atomic is one step; a region under the mutex is one step, except that the hand-off loop holds
    the mutex across the separate steps of its delegate calls. */
module BlockingInterleaving {
  import opened Counting
  import opened Guards

  type Tid = nat

  type SlotId = nat

  /** The identity of a delegate's slot guard. */
  type Token = nat

  /** How waiters are queued: at the back, or at the front of a bounded backlog. */
  datatype Discipline = Fifo | Lifo(backlog: nat)

  /** Where a delegate guard can be stored: a local variable of a thread, the `slot` of the waiter a
      thread has parked, or an entry of `active_slots_`. */
  datatype Place = Local(t: Tid) | Slot(t: Tid) | Active(id: SlotId)

  /** The delegate's compare-and-swap loop. */
  datatype Cas = Load | ReadCap(cur: int) | Swap(cur: int)

  datatype Pc =
    | Idle
    | Fast(cas: Cas)                          // fast path: inside the delegate
    | Got                                     // a delegate guard in a local variable, no id yet
    | Numbered(id: SlotId)                    // about to register it under the mutex
    | Turned                                  // refused: about to park under the mutex
    | Parked
    | Checking                                // notified or timed out: about to look under the mutex
    | Completing(id: SlotId, status: Status)  // an outer guard reported: about to extract
    | Extracted(status: Status)               // the inner guard in a local variable
    | Released                                // about to run the hand-off
    | Handing(cas: Cas)                       // hand-off: holds the mutex, inside the delegate

  datatype Tally = Tally(success: nat, ignored: nat, dropped: nat)

  function Plus(x: Tally, status: Status): Tally {
    match status
    case Success => x.(success := x.success + 1)
    case Ignored => x.(ignored := x.ignored + 1)
    case Dropped => x.(dropped := x.dropped + 1)
  }

  function Of(x: Tally, status: Status): nat {
    match status case Success => x.success case Ignored => x.ignored case Dropped => x.dropped
  }

  /** The delegate's counter and cap, the mutex and what it guards, the guard cells, the outer
      guards callers hold, and the threads. `tickets` numbers parkings, `served` lists the tickets
      handed a slot, `asked` and `mirrored` count completions of outer and of delegate guards. */
  datatype State = State(
    inflight: int, cap: int, nextToken: Token,
    lock: Option<Tid>, queue: seq<Tid>, cells: map<Place, Token>, ready: set<Tid>,
    nextId: SlotId, outer: set<SlotId>, pc: map<Tid, Pc>,
    nextTicket: nat, tickets: map<Tid, nat>, served: seq<nat>,
    asked: Tally, mirrored: Tally)

  datatype Action =
    | TryAcquire(t: Tid)
    | LoadInflight(t: Tid)
    | LoadCap(t: Tid)
    | SwapInflight(t: Tid, spurious: bool)
    | TakeId(t: Tid)
    | Register(t: Tid)
    | Park(t: Tid)
    | Notified(t: Tid)
    | TimeOut(t: Tid)
    | Check(t: Tid)
    | Complete(t: Tid, id: SlotId, status: Status)
    | Extract(t: Tid)
    | Mirror(t: Tid)
    | Unblock(t: Tid)
    | StoreCap(c: int)

  predicate InDelegate(x: Pc) { x.Fast? || x.Handing? }

  /** Steps that need the mutex, other than those of the thread that holds it. */
  predicate NeedsLock(x: Pc) { x.Numbered? || x.Turned? || x.Checking? || x.Completing? || x.Released? }

  predicate Enabled(d: Discipline, maxCap: nat, s: State, a: Action) {
    if a.StoreCap? then a.c <= maxCap
    else a.t in s.pc && (NeedsLock(s.pc[a.t]) ==> s.lock == None) && Fits(s, s.pc[a.t], a)
  }

  /** The action is the next one at this point of the thread's code. */
  predicate Fits(s: State, x: Pc, a: Action)
    requires !a.StoreCap?
  {
    match a
    case TryAcquire(_) => x.Idle?
    case LoadInflight(_) => x == Fast(Load) || x == Handing(Load)
    case LoadCap(_) => InDelegate(x) && x.cas.ReadCap?
    case SwapInflight(_, _) => InDelegate(x) && x.cas.Swap? && (x.Handing? ==> s.queue != [])
    case TakeId(_) => x.Got?
    case Register(_) => x.Numbered?
    case Park(_) => x.Turned?
    case Notified(t) => x.Parked? && t in s.ready
    case TimeOut(_) => x.Parked?
    case Check(_) => x.Checking?
    case Complete(_, id, _) => x.Idle? && id in s.outer
    case Extract(_) => x.Completing?
    case Mirror(_) => x.Extracted?
    case Unblock(_) => x.Released?
  }

  function Goto(s: State, t: Tid, x: Pc): State { s.(pc := s.pc[t := x]) }

  /** The same point of the code, further inside the delegate. */
  function Within(x: Pc, cas: Cas): Pc
    requires InDelegate(x)
  {
    if x.Fast? then Fast(cas) else Handing(cas)
  }

  /** How many of n waiters a delegate with this much room takes. */
  function Admissible(n: nat, room: int): nat {
    if room <= 0 then 0 else if room <= n then room else n
  }

  function Without<T>(q: seq<T>, k: nat): seq<T>
    requires k < |q|
  {
    q[..k] + q[k + 1..]
  }

  /** Search from the front, starting at `from`: the first occurrence, or the end. */
  function FirstAt<T(==)>(q: seq<T>, t: T, from: nat): (k: nat)
    requires from <= |q|
    ensures from <= k <= |q| && (k < |q| ==> q[k] == t) && forall j | from <= j < k :: q[j] != t
    decreases |q| - from
  {
    if from == |q| || q[from] == t then from else FirstAt(q, t, from + 1)
  }

  /** Search from the back, starting before `end`: one past the last occurrence, or zero. */
  function LastAt<T(==)>(q: seq<T>, t: T, end: nat): (k: nat)
    requires end <= |q|
    ensures k <= end && (0 < k ==> q[k - 1] == t) && forall j | k <= j < end :: q[j] != t
  {
    if end == 0 || q[end - 1] == t then end else LastAt(q, t, end - 1)
  }

  /** The timed-out waiter's linear search: erases its first occurrence from the front ... */
  function EraseFirst<T(==)>(q: seq<T>, t: T): seq<T> {
    var k := FirstAt(q, t, 0);
    if k < |q| then Without(q, k) else q
  }

  /** ... or, in the last-in-first-out limiter, from the back. */
  function EraseLast<T(==)>(q: seq<T>, t: T): seq<T> {
    var k := LastAt(q, t, |q|);
    if 0 < k then Without(q, k - 1) else q
  }

  function Erased<T(==)>(d: Discipline, q: seq<T>, t: T): seq<T> {
    if d.Fifo? then EraseFirst(q, t) else EraseLast(q, t)
  }

  function Moved(cells: map<Place, Token>, from: Place, to: Place): map<Place, Token>
    requires from in cells
  {
    (cells - {from})[to := cells[from]]
  }

  /** The delegate admits: the fast path keeps the guard, the hand-off gives it to the queue's head
      and goes on while somebody is queued. */
  function Admit(s: State, t: Tid): State
    requires t in s.pc && InDelegate(s.pc[t]) && (s.pc[t].Handing? ==> s.queue != [])
  {
    var v := s.(inflight := s.inflight + 1, nextToken := s.nextToken + 1);
    if s.pc[t].Fast? then Goto(v, t, Got).(cells := s.cells[Local(t) := s.nextToken])
    else
      var w, rest := s.queue[0], s.queue[1..];
      var u := v.(cells := s.cells[Slot(w) := s.nextToken], queue := rest, ready := s.ready + {w},
                  served := if w in s.tickets then s.served + [s.tickets[w]] else s.served);
      if rest == [] then Goto(u, t, Idle).(lock := None) else Goto(u, t, Handing(Load))
  }

  /** The delegate refuses: the fast path goes on to park, the hand-off stops. */
  function Refuse(s: State, t: Tid): State
    requires t in s.pc && InDelegate(s.pc[t])
  {
    if s.pc[t].Fast? then Goto(s, t, Turned) else Goto(s, t, Idle).(lock := None)
  }

  function Apply(d: Discipline, maxCap: nat, s: State, a: Action): State
    requires Enabled(d, maxCap, s, a)
  {
    match a
    case StoreCap(c) => s.(cap := c)
    case TryAcquire(t) => Goto(s, t, Fast(Load))
    case LoadInflight(t) => Goto(s, t, Within(s.pc[t], ReadCap(s.inflight)))
    case LoadCap(t) =>
      var cur := s.pc[t].cas.cur;
      if cur >= s.cap then Refuse(s, t) else Goto(s, t, Within(s.pc[t], Swap(cur)))
    case SwapInflight(t, spurious) =>
      if s.inflight == s.pc[t].cas.cur && !spurious then Admit(s, t)
      else Goto(s, t, Within(s.pc[t], ReadCap(s.inflight)))
    case TakeId(t) => Goto(s, t, Numbered(s.nextId)).(nextId := s.nextId + 1)
    case Register(t) =>
      var id := s.pc[t].id;
      var v := Goto(s, t, Idle).(outer := s.outer + {id});
      if Local(t) !in s.cells then v
      else if Active(id) in s.cells then
        // The entry exists: the new guard is destroyed, which completes it as ignored.
        v.(cells := s.cells - {Local(t)}, inflight := s.inflight - 1, mirrored := Plus(s.mirrored, Ignored))
      else v.(cells := Moved(s.cells, Local(t), Active(id)))
    case Park(t) =>
      if d.Lifo? && |s.queue| >= d.backlog then Goto(s, t, Idle)
      else Goto(s, t, Parked).(queue := if d.Fifo? then s.queue + [t] else [t] + s.queue,
                               ready := s.ready - {t},
                               tickets := s.tickets[t := s.nextTicket], nextTicket := s.nextTicket + 1)
    case Notified(t) => Goto(s, t, Checking)
    case TimeOut(t) => Goto(s, t, Checking)
    case Check(t) =>
      if Slot(t) in s.cells then Goto(s, t, Got).(cells := Moved(s.cells, Slot(t), Local(t)))
      else Goto(s, t, Idle).(queue := Erased(d, s.queue, t))
    case Complete(t, id, status) =>
      Goto(s, t, Completing(id, status)).(outer := s.outer - {id}, asked := Plus(s.asked, status))
    case Extract(t) =>
      var (id, status) := (s.pc[t].id, s.pc[t].status);
      if Active(id) in s.cells then Goto(s, t, Extracted(status)).(cells := Moved(s.cells, Active(id), Local(t)))
      else Goto(s, t, Released)
    case Mirror(t) =>
      Goto(s, t, Released).(inflight := s.inflight - 1, cells := s.cells - {Local(t)},
                            mirrored := Plus(s.mirrored, s.pc[t].status))
    case Unblock(t) =>
      if s.queue == [] then Goto(s, t, Idle)
      else Goto(s, t, Handing(Load)).(lock := Some(t))
  }

  // ---------- Runs ----------

  predicate LegalRun(d: Discipline, maxCap: nat, s: State, actions: seq<Action>)
    decreases |actions|
  {
    actions == [] ||
    (Enabled(d, maxCap, s, actions[0]) && LegalRun(d, maxCap, Apply(d, maxCap, s, actions[0]), actions[1..]))
  }

  function Execute(d: Discipline, maxCap: nat, s: State, actions: seq<Action>): State
    requires LegalRun(d, maxCap, s, actions)
    decreases |actions|
  {
    if actions == [] then s else Execute(d, maxCap, Apply(d, maxCap, s, actions[0]), actions[1..])
  }

  /** A new limiter over a delegate with nothing in flight. */
  ghost predicate Initial(maxCap: nat, s: State) {
    && s.inflight == 0 && s.cap <= maxCap && s.nextToken == 0 && s.lock == None
    && s.queue == [] && s.cells == map[] && s.ready == {} && s.nextId == 0 && s.outer == {}
    && s.nextTicket == 0 && s.tickets == map[] && s.served == []
    && s.asked == Tally(0, 0, 0) == s.mirrored
    && forall t | t in s.pc :: s.pc[t].Idle?
  }

  // ---------- The inductive invariant ----------

  /** A delegate guard is in one of this thread's local variables. */
  predicate HasLocal(x: Pc) { x.Got? || x.Numbered? || x.Extracted? }

  /** The thread's waiter is alive: the queue may point to it. */
  predicate Waiting(x: Pc) { x.Parked? || x.Checking? }

  /** What thread t may own: a guard in a local variable exactly where the code has one; and, while
      its waiter is alive, either a place in the queue or a guard in the waiter's slot, never both,
      and neither once the waiter is gone. */
  ghost predicate Home(s: State, t: Tid) {
    && (Local(t) in s.cells <==> t in s.pc && HasLocal(s.pc[t]))
    && (t in s.queue || Slot(t) in s.cells <==> t in s.pc && Waiting(s.pc[t]))
    && !(t in s.queue && Slot(t) in s.cells)
  }

  ghost predicate CellsInv(s: State) { forall t: Tid :: Home(s, t) }

  /** Registered ids are in use, and numbers given out are fresh and distinct. */
  ghost predicate IdsInv(s: State) {
    && (forall id | id in s.outer :: Active(id) in s.cells)
    && (forall id: SlotId | Active(id) in s.cells :: id < s.nextId)
    && (forall t | t in s.pc && s.pc[t].Completing? :: Active(s.pc[t].id) in s.cells && s.pc[t].id !in s.outer)
    && (forall t | t in s.pc && s.pc[t].Numbered? :: Active(s.pc[t].id) !in s.cells && s.pc[t].id < s.nextId)
    && (forall t, u | t in s.pc && u in s.pc && t != u && s.pc[t].Completing? && s.pc[u].Completing? ::
          s.pc[t].id != s.pc[u].id)
    && (forall t, u | t in s.pc && u in s.pc && t != u && s.pc[t].Numbered? && s.pc[u].Numbered? ::
          s.pc[t].id != s.pc[u].id)
  }

  predicate Completes(s: State, t: Tid, id: SlotId) { t in s.pc && s.pc[t].Completing? && s.pc[t].id == id }

  /** Each registered entry belongs to an outer guard somebody holds or is just completing. */
  ghost predicate OwnedInv(s: State) {
    forall id: SlotId | Active(id) in s.cells && id !in s.outer :: exists t :: Completes(s, t, id)
  }

  /** No token is in two cells, and the delegate counts the full cells. */
  ghost predicate TokensInv(cells: map<Place, Token>, inflight: int, nextToken: Token) {
    && (forall p, q | p in cells && q in cells && p != q :: cells[p] != cells[q])
    && (forall p | p in cells :: cells[p] < nextToken)
    && |cells| == inflight
  }

  ghost predicate Distinct<T>(q: seq<T>) { forall i, j | 0 <= i < j < |q| :: q[i] != q[j] }

  /** The mutex is held across steps only by a hand-off with somebody queued. */
  ghost predicate LockInv(s: State) {
    && Distinct(s.queue)
    && (forall t: Tid :: s.lock == Some(t) <==> t in s.pc && s.pc[t].Handing?)
    && (s.lock != None ==> s.queue != [])
  }

  /** A parked waiter has been notified exactly if it has been handed a slot. */
  ghost predicate ReadyInv(s: State) {
    forall t | t in s.pc && s.pc[t].Parked? :: t in s.ready <==> Slot(t) in s.cells
  }

  /** The compare-and-swap only ever succeeds below a cap that was read. */
  ghost predicate CapInv(maxCap: nat, s: State) {
    && s.cap <= maxCap && s.inflight <= maxCap
    && forall t | t in s.pc && InDelegate(s.pc[t]) && s.pc[t].cas.Swap? :: s.pc[t].cas.cur < maxCap
  }

  function TicketOf(s: State, t: Tid): nat { if t in s.tickets then s.tickets[t] else 0 }

  ghost predicate InOrder(d: Discipline, x: nat, y: nat) { if d.Fifo? then x < y else y < x }

  /** Along the queue the parking tickets rise (first in, first out) or fall (last in, first out). */
  ghost predicate OrderInv(d: Discipline, s: State) {
    && (forall t | t in s.queue :: t in s.tickets && s.tickets[t] < s.nextTicket)
    && (forall i, j | 0 <= i < j < |s.queue| :: InOrder(d, TicketOf(s, s.queue[i]), TicketOf(s, s.queue[j])))
    && (d.Lifo? ==> |s.queue| <= d.backlog)
  }

  /** In the first-in-first-out limiter tickets are served in rising order over the whole run. */
  ghost predicate ServedInv(d: Discipline, s: State) {
    d.Fifo? ==>
      && (forall i, j | 0 <= i < j < |s.served| :: s.served[i] < s.served[j])
      && (forall i | 0 <= i < |s.served| :: s.served[i] < s.nextTicket)
      && (forall i, t | 0 <= i < |s.served| && t in s.queue :: s.served[i] < TicketOf(s, t))
  }

  function Owes(status: Status): Pc -> bool {
    (x: Pc) => (x.Completing? || x.Extracted?) && x.status == status
  }

  /** Every completion of an outer guard has been mirrored with its status, or is about to be. */
  ghost predicate MirrorInv(s: State) {
    forall status :: Of(s.asked, status) == Of(s.mirrored, status) + Count(s.pc, Owes(status))
  }

  function Total(x: Tally): nat { x.success + x.ignored + x.dropped }

  /** Every guard the delegate ever handed out is live, or was completed once. */
  ghost predicate AdmissionsInv(s: State) { s.nextToken == s.inflight + Total(s.mirrored) }

  ghost predicate Inv(d: Discipline, maxCap: nat, s: State) {
    && CellsInv(s) && IdsInv(s) && OwnedInv(s) && TokensInv(s.cells, s.inflight, s.nextToken)
    && LockInv(s) && ReadyInv(s) && CapInv(maxCap, s)
    && OrderInv(d, s) && ServedInv(d, s) && MirrorInv(s) && AdmissionsInv(s)
  }
}
