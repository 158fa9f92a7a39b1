/** Every interleaving of threads in `WindowedLimit::OnSample` over average sample windows
    (src/windowed_limit.cc, src/average_sample_window.cc). Each access to one atomic field is one
    step; a field is the set of samples folded into it since it was last reset. */
module WindowedInterleaving {
  import opened Counting
  import opened Windowed
  import SampleWindows

  type Tid = nat

  /** The identity of an accepted sample. */
  type Id = nat

  /** The atomics of a window, in the order in which a sample is added to them and in which they are
      reset. */
  datatype Field = Count | Sum | Least | Most | Drop

  function Index(f: Field): nat {
    match f case Count => 0 case Sum => 1 case Least => 2 case Most => 3 case Drop => 4
  }

  datatype Fields = Fields(count: set<Id>, sum: set<Id>, least: set<Id>, most: set<Id>, drop: set<Id>)

  const NONE := Fields({}, {}, {}, {}, {})

  function Get(x: Fields, f: Field): set<Id> {
    match f case Count => x.count case Sum => x.sum case Least => x.least case Most => x.most case Drop => x.drop
  }

  function Put(x: Fields, f: Field, ids: set<Id>): Fields {
    match f
    case Count => x.(count := ids)
    case Sum => x.(sum := ids)
    case Least => x.(least := ids)
    case Most => x.(most := ids)
    case Drop => x.(drop := ids)
  }

  datatype Pc =
    | Idle
    | Entered(call: Call, id: Id)                           // about to load the active index
    | Adding(call: Call, id: Id, slot: nat, field: Field)   // about to add to this field
    | LoadDue(call: Call)
    | TryLock(call: Call)
    | Recheck(call: Call)
    | Choose(call: Call)                                    // about to load the index under the lock
    | Reading(call: Call, slot: nat, step: nat)
    | Flip(call: Call, slot: nat)
    | Scheduling(call: Call, slot: nat)
    | Resetting(slot: nat, field: Field)
    | Unlocking

  /** The thread is between taking the try-lock and giving it up. */
  predicate InBoundary(x: Pc) {
    x.Recheck? || x.Choose? || OnSlot(x) || x.Unlocking?
  }

  /** ... and is working on the completed slot. */
  predicate OnSlot(x: Pc) { x.Reading? || x.Flip? || x.Scheduling? || x.Resetting? }

  /** The order of reads at a boundary: the count is read for the mean and again by itself. */
  function ReadAt(step: nat): Field {
    if step == 0 then Least else if step == 1 || step == 4 then Count
    else if step == 2 then Sum else if step == 3 then Most else Drop
  }

  /** `recorded` has the samples added to each field so far, `delivered` those some boundary has
      read, `erased` those reset unread. `reading` and `pending` describe the boundary under way:
      what it has read, and which of the fields it read are not reset yet. `windows` lists the
      completed reads and `dues` the successive due times. */
  datatype State = State(
    slots: seq<Fields>, active: nat, due: int, lock: Option<Tid>, pc: map<Tid, Pc>, nextId: Id,
    recorded: Fields, delivered: Fields, erased: Fields, reading: Fields, pending: set<Field>,
    windows: seq<Fields>, dues: seq<int>)

  datatype Action =
    | OnSample(t: Tid, call: Call)
    | Advance(t: Tid)
    | Lock(t: Tid, spurious: bool)
    | Schedule(t: Tid, candidate: int)

  predicate Enabled(c: Config, s: State, a: Action) {
    && a.t in s.pc && |s.slots| == 2
    && match a
       case OnSample(t, _) => s.pc[t].Idle?
       case Lock(t, _) => s.pc[t].TryLock?
       case Schedule(t, _) => s.pc[t].Scheduling?
       case Advance(t) =>
         var x := s.pc[t];
         && !x.Idle? && !x.TryLock? && !x.Scheduling?
         && ((x.Adding? || OnSlot(x)) ==> x.slot < 2) && s.active < 2
  }

  function Goto(s: State, t: Tid, x: Pc): State { s.(pc := s.pc[t := x]) }

  /** Adding to one field after the other; the drop flag only if the sample reports a drop. */
  function AfterAdd(call: Call, id: Id, slot: nat, field: Field): Pc {
    match field
    case Count => Adding(call, id, slot, Sum)
    case Sum => Adding(call, id, slot, Least)
    case Least => Adding(call, id, slot, Most)
    case Most => if call.drop then Adding(call, id, slot, Drop) else LoadDue(call)
    case Drop => LoadDue(call)
  }

  function AfterReset(slot: nat, field: Field): Pc {
    match field
    case Count => Resetting(slot, Sum)
    case Sum => Resetting(slot, Least)
    case Least => Resetting(slot, Most)
    case Most => Resetting(slot, Drop)
    case Drop => Unlocking
  }

  function Add(s: State, id: Id, slot: nat, f: Field): State
    requires slot < |s.slots|
  {
    s.(slots := s.slots[slot := Put(s.slots[slot], f, Get(s.slots[slot], f) + {id})],
       recorded := Put(s.recorded, f, Get(s.recorded, f) + {id}))
  }

  function Read(s: State, slot: nat, f: Field): State
    requires slot < |s.slots|
  {
    var ids := Get(s.slots[slot], f);
    s.(reading := Put(s.reading, f, ids), pending := s.pending + {f},
       delivered := Put(s.delivered, f, Get(s.delivered, f) + ids))
  }

  function Reset(s: State, slot: nat, f: Field): State
    requires slot < |s.slots|
  {
    var unread := Get(s.slots[slot], f) - if f in s.pending then Get(s.reading, f) else {};
    s.(slots := s.slots[slot := Put(s.slots[slot], f, {})], pending := s.pending - {f},
       erased := Put(s.erased, f, Get(s.erased, f) + unread))
  }

  function Apply(c: Config, s: State, a: Action): State
    requires Enabled(c, s, a)
  {
    match a
    case OnSample(t, call) =>
      if call.rtt < c.threshold then s else Goto(s, t, Entered(call, s.nextId)).(nextId := s.nextId + 1)
    case Lock(t, spurious) =>
      if s.lock != None || spurious then Goto(s, t, Idle)
      else Goto(s, t, Recheck(s.pc[t].call)).(lock := Some(t))
    case Schedule(t, candidate) =>
      // The least round trip read is left open; the largest machine integer stands for none.
      var due := End(s.pc[t].call)
               + if candidate == SampleWindows.INT64_MAX then c.minWindow else WindowLength(c, candidate);
      Goto(s, t, Resetting(s.pc[t].slot, Count)).(due := due, dues := s.dues + [due])
    case Advance(t) => Advanced(s, t, s.pc[t])
  }

  function Advanced(s: State, t: Tid, x: Pc): State
    requires t in s.pc && s.pc[t] == x && |s.slots| == 2 && s.active < 2
    requires !x.Idle? && !x.TryLock? && !x.Scheduling? && ((x.Adding? || OnSlot(x)) ==> x.slot < 2)
  {
    match x
    case Entered(call, id) => Goto(s, t, Adding(call, id, s.active, Count))
    case Adding(call, id, slot, field) => Goto(Add(s, id, slot, field), t, AfterAdd(call, id, slot, field))
    case LoadDue(call) => Goto(s, t, if End(call) <= s.due then Idle else TryLock(call))
    case Recheck(call) => Goto(s, t, if End(call) <= s.due then Unlocking else Choose(call))
    case Choose(call) => Goto(s, t, Reading(call, s.active, 0)).(reading := NONE)
    case Reading(call, slot, step) =>
      // An empty count reports a mean of zero without reading the sum.
      var v := if step == 2 && s.reading.count == {} then s else Read(s, slot, ReadAt(step));
      if step < 5 then Goto(v, t, Reading(call, slot, step + 1))
      else Goto(v, t, Flip(call, slot)).(windows := s.windows + [v.reading])
    case Flip(call, slot) => Goto(s, t, Scheduling(call, slot)).(active := 1 - slot)
    case Resetting(slot, field) => Goto(Reset(s, slot, field), t, AfterReset(slot, field))
    case Unlocking => Goto(s, t, Idle).(lock := None)
  }

  // ---------- Runs ----------

  predicate LegalRun(c: Config, s: State, actions: seq<Action>)
    decreases |actions|
  {
    actions == [] || (Enabled(c, s, actions[0]) && LegalRun(c, Apply(c, s, actions[0]), actions[1..]))
  }

  function Execute(c: Config, s: State, actions: seq<Action>): State
    requires LegalRun(c, s, actions)
    decreases |actions|
  {
    if actions == [] then s else Execute(c, Apply(c, s, actions[0]), actions[1..])
  }

  ghost predicate Initial(s: State) {
    && s.slots == [NONE, NONE] && s.active == 0 && s.due == 0 && s.lock == None && s.nextId == 0
    && s.recorded == NONE && s.delivered == NONE && s.erased == NONE
    && s.reading == NONE && s.pending == {} && s.windows == [] && s.dues == [0]
    && forall t | t in s.pc :: s.pc[t].Idle?
  }

  // ---------- The inductive invariant ----------

  /** One boundary at a time, and slot numbers in range. */
  ghost predicate LockInv(s: State) {
    && |s.slots| == 2 && s.active < 2
    && (forall t: Tid :: s.lock == Some(t) <==> t in s.pc && InBoundary(s.pc[t]))
    && (forall t | t in s.pc && (s.pc[t].Adding? || OnSlot(s.pc[t])) :: s.pc[t].slot < 2)
  }

  predicate HasId(x: Pc) { x.Entered? || x.Adding? }

  /** The thread's sample has not been added to the fields it has yet to reach. */
  ghost predicate NotYet(recorded: Fields, x: Pc) {
    && (x.Entered? ==> forall f :: x.id !in Get(recorded, f))
    && (x.Adding? ==> forall f | Index(x.field) <= Index(f) :: x.id !in Get(recorded, f))
  }

  /** A thread's sample is its own. */
  ghost predicate IdsInv(s: State) {
    && (forall f, id | id in Get(s.recorded, f) :: id < s.nextId)
    && (forall t | t in s.pc && HasId(s.pc[t]) :: s.pc[t].id < s.nextId)
    && (forall t | t in s.pc :: NotYet(s.recorded, s.pc[t]))
    && (forall t, u | t in s.pc && u in s.pc && t != u && HasId(s.pc[t]) && HasId(s.pc[u]) ::
          s.pc[t].id != s.pc[u].id)
  }

  /** The slot a boundary is working on. */
  function Completed(s: State): Option<nat> {
    if s.lock.Some? && s.lock.value in s.pc && OnSlot(s.pc[s.lock.value]) then Some(s.pc[s.lock.value].slot) else None
  }

  /** Only a boundary at work has read fields it has yet to reset; it resets them all. */
  ghost predicate PendingInv(s: State) {
    && (Completed(s).None? ==> s.pending == {})
    && (forall t, f | t in s.pc && s.pc[t].Resetting? && f in s.pending :: Index(s.pc[t].field) <= Index(f))
  }

  /** What of a slot's field has been read already: all a boundary under way has read there. */
  function Overlap(s: State, i: nat, f: Field): set<Id> {
    if f in s.pending && Completed(s) == Some(i) then Get(s.reading, f) else {}
  }

  /** Each sample added to a field is in one place: read at a boundary, erased unread, or in one of
      the slots; only what a boundary has just read is both read and still there. */
  ghost predicate Partition(s: State, f: Field)
    requires |s.slots| == 2
  {
    var (read, lost) := (Get(s.delivered, f), Get(s.erased, f));
    var (zero, one) := (Get(s.slots[0], f), Get(s.slots[1], f));
    && Get(s.recorded, f) == read + lost + zero + one
    && read !! lost && zero !! one && lost !! zero && lost !! one
    && zero * read == Overlap(s, 0, f) && one * read == Overlap(s, 1, f)
  }

  ghost predicate PartitionInv(s: State) {
    |s.slots| == 2 && forall f: Field :: Partition(s, f)
  }

  function Union(windows: seq<Fields>, f: Field): set<Id> {
    if windows == [] then {} else Union(windows[..|windows| - 1], f) + Get(windows[|windows| - 1], f)
  }

  predicate IsReading(s: State) { s.lock.Some? && s.lock.value in s.pc && s.pc[s.lock.value].Reading? }

  ghost predicate Apart(windows: seq<Fields>, f: Field) {
    forall i, j | 0 <= i < j < |windows| :: Get(windows[i], f) !! Get(windows[j], f)
  }

  /** No sample is in two windows, and the windows, with the reads under way, are all that is read. */
  ghost predicate WindowsOf(s: State, f: Field) {
    && Apart(s.windows, f)
    && Get(s.delivered, f) == Union(s.windows, f) + (if IsReading(s) then Get(s.reading, f) else {})
    && (IsReading(s) ==> Get(s.reading, f) !! Union(s.windows, f))
    && (IsReading(s) && f !in s.pending ==> Get(s.reading, f) == {})
  }

  ghost predicate WindowsInv(s: State) { forall f: Field :: WindowsOf(s, f) }

  /** The thread has found its sample past the due time under the lock. */
  predicate Overdue(x: Pc) { x.Choose? || x.Reading? || x.Flip? || x.Scheduling? }

  ghost predicate DuesInv(c: Config, s: State) {
    && s.dues != [] && s.due == s.dues[|s.dues| - 1]
    && (forall i | 0 <= i < |s.dues| - 1 :: s.dues[i] + c.minWindow < s.dues[i + 1])
    && (forall t | t in s.pc && Overdue(s.pc[t]) :: s.due < End(s.pc[t].call))
  }

  ghost predicate Inv(c: Config, s: State) {
    LockInv(s) && IdsInv(s) && PendingInv(s) && PartitionInv(s) && WindowsInv(s) && DuesInv(c, s)
  }
}
