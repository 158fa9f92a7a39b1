/** Every step of the windowed limit's threads keeps the inductive invariant, and what follows for
    every run. */
module WindowedInvariant {
  import opened Counting
  import opened Windowed
  import opened WindowedInterleaving
  import SampleWindows

  // ---------- One field at a time ----------

  lemma PutGet(x: Fields, f: Field, ids: set<Id>)
    ensures Get(Put(x, f, ids), f) == ids
    ensures forall g | g != f :: Get(Put(x, f, ids), g) == Get(x, g)
  {
  }

  /** Nothing about samples or boundaries changes but program counters outside the completed slot. */
  ghost predicate SameFields(s: State, s': State) {
    && s'.slots == s.slots && s'.recorded == s.recorded && s'.delivered == s.delivered && s'.erased == s.erased
    && s'.reading == s.reading && s'.pending == s.pending && s'.windows == s.windows
  }

  lemma PartitionSame(s: State, s': State, f: Field)
    requires |s.slots| == 2 && SameFields(s, s') && Partition(s, f)
    requires Completed(s') == Completed(s) || s.pending == {}
    ensures Partition(s', f)
  {
  }

  lemma PartitionAdd(s: State, s': State, id: Id, slot: nat, g: Field, f: Field)
    requires |s.slots| == 2 && slot < 2 && Partition(s, f) && id !in Get(s.recorded, g)
    requires SameFields(Add(s, id, slot, g), s') && Completed(s') == Completed(s)
    ensures Partition(s', f)
  {
    PutGet(s.slots[slot], g, Get(s.slots[slot], g) + {id});
    PutGet(s.recorded, g, Get(s.recorded, g) + {id});
    hide Get, Put;
    if f == g {
      assert id !in Get(s.delivered, f) && id !in Get(s.erased, f);
      assert id !in Get(s.slots[0], f) && id !in Get(s.slots[1], f);
    }
  }

  lemma PartitionRead(s: State, s': State, slot: nat, g: Field, f: Field)
    requires |s.slots| == 2 && slot < 2 && Partition(s, f) && Completed(s) == Some(slot)
    requires Read(s, slot, g).(windows := s'.windows, pc := s'.pc) == s' && Completed(s') == Some(slot)
    ensures Partition(s', f)
  {
    var ids := Get(s.slots[slot], g);
    PutGet(s.reading, g, ids);
    PutGet(s.delivered, g, Get(s.delivered, g) + ids);
    hide Get, Put;
  }

  /** Emptying one slot's field: what was not seen there is lost. */
  lemma Emptied(all: set<Id>, read: set<Id>, lost: set<Id>, here: set<Id>, there: set<Id>, seen: set<Id>)
    requires all == read + lost + here + there
    requires read !! lost && here !! there && lost !! here && lost !! there && here * read == seen
    ensures var lost' := lost + (here - seen);
      all == read + lost' + there && read !! lost' && lost' !! there
  {
    assert forall id | id in here && id in read :: id in seen;
  }

  lemma PartitionEmptied(s: State, s': State, slot: nat, f: Field)
    requires |s.slots| == 2 == |s'.slots| && slot < 2 && Partition(s, f) && Completed(s) == Some(slot)
    requires Get(s'.slots[slot], f) == {} && s'.slots[1 - slot] == s.slots[1 - slot]
    requires Get(s'.recorded, f) == Get(s.recorded, f) && Get(s'.delivered, f) == Get(s.delivered, f)
    requires Get(s'.erased, f)
          == Get(s.erased, f) + (Get(s.slots[slot], f) - if f in s.pending then Get(s.reading, f) else {})
    requires f !in s'.pending
    ensures Partition(s', f)
  {
    hide Get, Completed;
    var seen := if f in s.pending then Get(s.reading, f) else {};
    Emptied(Get(s.recorded, f), Get(s.delivered, f), Get(s.erased, f),
            Get(s.slots[slot], f), Get(s.slots[1 - slot], f), seen);
  }

  lemma PartitionReset(s: State, s': State, slot: nat, g: Field, f: Field)
    requires |s.slots| == 2 && slot < 2 && Partition(s, f) && Completed(s) == Some(slot)
    requires Reset(s, slot, g).(pc := s'.pc) == s' && (Completed(s') == Some(slot) || s'.pending == {})
    ensures Partition(s', f)
  {
    PutGet(s.slots[slot], g, {});
    PutGet(s.erased, g, Get(s.erased, g) + (Get(s.slots[slot], g) - if g in s.pending then Get(s.reading, g) else {}));
    hide Get, Put, Completed, Partition;
    if f == g {
      PartitionEmptied(s, s', slot, f);
    } else {
      PartitionOther(s, s', f);
    }
  }

  lemma PartitionOther(s: State, s': State, f: Field)
    requires |s.slots| == 2 == |s'.slots| && Partition(s, f)
    requires forall i | 0 <= i < 2 :: Get(s'.slots[i], f) == Get(s.slots[i], f)
    requires Get(s'.recorded, f) == Get(s.recorded, f) && Get(s'.delivered, f) == Get(s.delivered, f)
    requires Get(s'.erased, f) == Get(s.erased, f) && Get(s'.reading, f) == Get(s.reading, f)
    requires (f in s'.pending <==> f in s.pending) && (f in s.pending ==> Completed(s') == Completed(s))
    ensures Partition(s', f)
  {
    hide Get, Completed;
  }

  // ---------- The try-lock ----------

  /** How a step of thread t moves the try-lock. */
  lemma LockTurns(c: Config, s: State, a: Action)
    requires Enabled(c, s, a) && s.active < 2 && (OnSlot(s.pc[a.t]) ==> s.pc[a.t].slot < 2)
    ensures
      var s' := Apply(c, s, a);
      && a.t in s'.pc
      && var x, x' := s.pc[a.t], s'.pc[a.t];
      && (InBoundary(x') && !InBoundary(x) ==> s.lock == None && s'.lock == Some(a.t))
      && (!InBoundary(x') && InBoundary(x) ==> s'.lock == None)
      && (InBoundary(x') == InBoundary(x) ==> s'.lock == s.lock)
      && (x'.Adding? || OnSlot(x') ==> x'.slot < 2) && s'.active < 2
  {
    hide Add, Read, Reset, Put, Get;
    FrameStep(c, s, a);
  }

  lemma LockStep(c: Config, s: State, a: Action)
    requires LockInv(s) && Enabled(c, s, a)
    ensures LockInv(Apply(c, s, a))
  {
    hide Apply, InBoundary, OnSlot;
    FrameStep(c, s, a);
    LockTurns(c, s, a);
    assert s.lock == Some(a.t) <==> InBoundary(s.pc[a.t]);
  }

  lemma FrameStep(c: Config, s: State, a: Action)
    requires Enabled(c, s, a)
    ensures var s' := Apply(c, s, a);
      && |s'.slots| == 2 && a.t in s'.pc && s'.pc == s.pc[a.t := s'.pc[a.t]]
      && (!a.Schedule? ==> s'.due == s.due && s'.dues == s.dues)
      && (!a.OnSample? ==> s'.nextId == s.nextId)
      && (!a.Lock? && !s.pc[a.t].Unlocking? ==> s'.lock == s.lock)
      && (!s.pc[a.t].Adding? ==> s'.recorded == s.recorded)
      && (!s.pc[a.t].Flip? ==> s'.active == s.active)
  {
    hide Put, Get;
    if a.Advance? { assert s.pc[a.t].Flip? ==> s.pc[a.t].slot < 2; }
  }

  // ---------- Sample numbers ----------

  lemma IdsElsewhere(s: State, s': State, t: Tid)
    requires IdsInv(s) && t in s.pc && t in s'.pc && s'.pc == s.pc[t := s'.pc[t]]
    requires s'.recorded == s.recorded && s'.nextId == s.nextId && !HasId(s'.pc[t])
    ensures IdsInv(s')
  {
    assert NotYet(s'.recorded, s'.pc[t]);
    hide NotYet, Get;
  }

  /** Adding one sample to one field: the sample has passed that field, and no other thread has it. */
  lemma NotYetAdded(recorded: Fields, recorded': Fields, x: Pc, f: Field, id: Id)
    requires NotYet(recorded, x) && recorded' == Put(recorded, f, Get(recorded, f) + {id})
    requires HasId(x) ==> x.id != id || (x.Adding? && Index(f) < Index(x.field))
    ensures NotYet(recorded', x)
  {
    PutGet(recorded, f, Get(recorded, f) + {id});
    hide Get, Put;
  }

  lemma NotYetNext(s: State, x: Pc, y: Pc)
    requires NotYet(s.recorded, x) && x.Adding? && (y.Adding? ==> y.id == x.id && Index(x.field) <= Index(y.field))
    requires !y.Entered?
    ensures NotYet(s.recorded, y)
  {
    hide Get;
  }

  lemma IdsAdd(c: Config, s: State, t: Tid)
    requires IdsInv(s) && Enabled(c, s, Advance(t)) && s.pc[t].Adding?
    ensures IdsInv(Apply(c, s, Advance(t)))
  {
    var s', x := Apply(c, s, Advance(t)), s.pc[t];
    PutGet(s.recorded, x.field, Get(s.recorded, x.field) + {x.id});
    hide NotYet, Get, Put;
    NotYetNext(s, x, s'.pc[t]);
    forall u | u in s'.pc
      ensures NotYet(s'.recorded, s'.pc[u])
    {
      NotYetAdded(s.recorded, s'.recorded, s'.pc[u], x.field, x.id);
    }
  }

  lemma IdsEnter(c: Config, s: State, a: Action)
    requires IdsInv(s) && Enabled(c, s, a) && (a.OnSample? || s.pc[a.t].Entered?)
    ensures IdsInv(Apply(c, s, a))
  {
    hide Get;
    var s' := Apply(c, s, a);
    assert NotYet(s.recorded, s'.pc[a.t]);
    hide NotYet;
  }

  lemma IdsStep(c: Config, s: State, a: Action)
    requires IdsInv(s) && Enabled(c, s, a)
    ensures IdsInv(Apply(c, s, a))
  {
    hide IdsInv;
    if a.OnSample? || s.pc[a.t].Entered? {
      IdsEnter(c, s, a);
    } else if s.pc[a.t].Adding? {
      IdsAdd(c, s, a.t);
    } else {
      hide Add, Read, Reset;
      FrameStep(c, s, a);
      IdsElsewhere(s, Apply(c, s, a), a.t);
    }
  }

  // ---------- What a boundary has read and not reset ----------

  lemma Holder(s: State, t: Tid)
    requires LockInv(s) && t in s.pc && InBoundary(s.pc[t])
    ensures s.lock == Some(t)
    ensures Completed(s) == if OnSlot(s.pc[t]) then Some(s.pc[t].slot) else None
    ensures IsReading(s) == s.pc[t].Reading?
    ensures forall u | u in s.pc && u != t :: !InBoundary(s.pc[u])
  {
    assert forall u | u in s.pc && InBoundary(s.pc[u]) :: s.lock == Some(u);
  }

  /** A step of a thread outside the boundary leaves the boundary alone. */
  lemma Outside(c: Config, s: State, a: Action)
    requires LockInv(s) && Enabled(c, s, a) && !InBoundary(s.pc[a.t])
    ensures var s' := Apply(c, s, a);
      && Completed(s') == Completed(s) && IsReading(s') == IsReading(s)
      && s'.pending == s.pending && s'.reading == s.reading && s'.windows == s.windows
      && s'.delivered == s.delivered && s'.erased == s.erased
      && (!s.pc[a.t].Adding? ==> SameFields(s, s'))
      && !OnSlot(s'.pc[a.t])
  {
    hide Put, Get;
    assert s.lock != Some(a.t);
  }

  lemma PendingStep(c: Config, s: State, a: Action)
    requires LockInv(s) && PendingInv(s) && Enabled(c, s, a)
    ensures PendingInv(Apply(c, s, a))
  {
    var s' := Apply(c, s, a);
    if InBoundary(s.pc[a.t]) {
      Holder(s, a.t);
      LockStep(c, s, a);
      PendingInside(c, s, a);
    } else {
      hide Apply;
      Outside(c, s, a);
      FrameStep(c, s, a);
    }
  }

  lemma PendingInside(c: Config, s: State, a: Action)
    requires LockInv(s) && PendingInv(s) && Enabled(c, s, a) && InBoundary(s.pc[a.t]) && LockInv(Apply(c, s, a))
    ensures PendingInv(Apply(c, s, a))
  {
    hide Put, Get;
    Holder(s, a.t);
    var s' := Apply(c, s, a);
    if InBoundary(s'.pc[a.t]) { Holder(s', a.t); }
  }

  // ---------- Every sample in one place ----------

  lemma PartitionStep(c: Config, s: State, a: Action, f: Field)
    requires LockInv(s) && IdsInv(s) && PendingInv(s) && Partition(s, f) && Enabled(c, s, a)
    requires LockInv(Apply(c, s, a)) && PendingInv(Apply(c, s, a))
    ensures Partition(Apply(c, s, a), f)
  {
    hide Partition, Get, Put;
    var s', x := Apply(c, s, a), s.pc[a.t];
    if x.Adding? {
      Outside(c, s, a);
      PartitionAdd(s, s', x.id, x.slot, x.field, f);
    } else if !InBoundary(x) {
      Outside(c, s, a);
      PartitionSame(s, s', f);
    } else {
      PartitionInside(c, s, a, f);
    }
  }

  lemma PartitionInside(c: Config, s: State, a: Action, f: Field)
    requires LockInv(s) && PendingInv(s) && Partition(s, f) && Enabled(c, s, a) && InBoundary(s.pc[a.t])
    requires LockInv(Apply(c, s, a)) && PendingInv(Apply(c, s, a))
    ensures Partition(Apply(c, s, a), f)
  {
    hide Partition, Get, Put, IdsInv;
    var s', x := Apply(c, s, a), s.pc[a.t];
    Holder(s, a.t);
    if InBoundary(s'.pc[a.t]) { Holder(s', a.t); }
    match x
    case Reading(_, slot, step) =>
      if step == 2 && s.reading.count == {} {
        PartitionSame(s, s', f);
      } else {
        PartitionRead(s, s', slot, ReadAt(step), f);
      }
    case Resetting(slot, field) => PartitionReset(s, s', slot, field, f);
    case Choose(_) => PartitionUnread(s, s', f);
    case _ => PartitionSame(s, s', f);
  }

  /** Forgetting old reads when nothing is pending. */
  lemma PartitionUnread(s: State, s': State, f: Field)
    requires |s.slots| == 2 && SameFields(s.(reading := NONE), s') && Partition(s, f) && s.pending == {}
    ensures Partition(s', f)
  {
  }

  // ---------- No sample in two windows ----------

  lemma {:induction false} InUnion(windows: seq<Fields>, f: Field, i: nat)
    requires i < |windows|
    ensures Get(windows[i], f) <= Union(windows, f)
  {
    if i < |windows| - 1 {
      InUnion(windows[..|windows| - 1], f, i);
    }
  }

  lemma WindowsAppend(windows: seq<Fields>, x: Fields, f: Field)
    requires Apart(windows, f) && Get(x, f) !! Union(windows, f)
    ensures Apart(windows + [x], f)
    ensures Union(windows + [x], f) == Union(windows, f) + Get(x, f)
  {
    assert (windows + [x])[..|windows|] == windows;
    forall i | 0 <= i < |windows|
      ensures Get(windows[i], f) !! Get(x, f)
    {
      InUnion(windows, f, i);
    }
  }

  /** Reading a field again, or for the first time, adds nothing an earlier window has read. */
  lemma ReadIsNew(s: State, slot: nat, f: Field)
    requires |s.slots| == 2 && slot < 2 && Partition(s, f) && WindowsOf(s, f)
    requires Completed(s) == Some(slot) && IsReading(s)
    ensures Get(s.slots[slot], f) !! Union(s.windows, f)
    ensures Get(s.reading, f) <= Get(s.slots[slot], f)
  {
    hide Get, Union;
    var ids, read := Get(s.slots[slot], f), Get(s.delivered, f);
    assert ids * read == Overlap(s, slot, f);
    assert Union(s.windows, f) <= read;
    forall id | id in ids
      ensures id !in Union(s.windows, f)
    {
      if id in read { assert id in Overlap(s, slot, f); }
    }
  }

  lemma WindowsRead(c: Config, s: State, t: Tid, f: Field)
    requires LockInv(s) && PartitionInv(s) && WindowsOf(s, f) && Enabled(c, s, Advance(t)) && s.pc[t].Reading?
    requires LockInv(Apply(c, s, Advance(t)))
    ensures WindowsOf(Apply(c, s, Advance(t)), f)
  {
    var s', x := Apply(c, s, Advance(t)), s.pc[t];
    Holder(s, t);
    Holder(s', t);
    var v := if x.step == 2 && s.reading.count == {} then s else Read(s, x.slot, ReadAt(x.step));
    ReadKeeps(s, v, x.slot, ReadAt(x.step), f);
    hide Get, Put, Union, Apart, Partition, Read;
    if x.step >= 5 {
      WindowsAppend(s.windows, v.reading, f);
    }
  }

  lemma ReadKeeps(s: State, v: State, slot: nat, g: Field, f: Field)
    requires |s.slots| == 2 && slot < 2 && PartitionInv(s) && WindowsOf(s, f)
    requires Completed(s) == Some(slot) && IsReading(s)
    requires v == s || v == Read(s, slot, g)
    ensures Get(v.delivered, f) == Union(s.windows, f) + Get(v.reading, f)
    ensures Get(v.reading, f) !! Union(s.windows, f)
    ensures f !in v.pending ==> Get(v.reading, f) == {}
  {
    var ids := Get(s.slots[slot], g);
    PutGet(s.reading, g, ids);
    PutGet(s.delivered, g, Get(s.delivered, g) + ids);
    assert Partition(s, f);
    ReadIsNew(s, slot, f);
  }

  lemma WindowsChoose(c: Config, s: State, t: Tid, f: Field)
    requires LockInv(s) && WindowsOf(s, f) && Enabled(c, s, Advance(t)) && s.pc[t].Choose?
    requires LockInv(Apply(c, s, Advance(t)))
    ensures WindowsOf(Apply(c, s, Advance(t)), f)
  {
    Holder(s, t);
    Holder(Apply(c, s, Advance(t)), t);
    hide Union, Apart;
  }

  lemma WindowsSame(s: State, s': State, f: Field)
    requires WindowsOf(s, f) && s'.windows == s.windows && s'.delivered == s.delivered
    requires IsReading(s') == IsReading(s)
    requires IsReading(s) ==> s'.reading == s.reading && s'.pending == s.pending
    ensures WindowsOf(s', f)
  {
  }

  lemma WindowsStep(c: Config, s: State, a: Action, f: Field)
    requires LockInv(s) && PartitionInv(s) && WindowsOf(s, f) && Enabled(c, s, a) && LockInv(Apply(c, s, a))
    ensures WindowsOf(Apply(c, s, a), f)
  {
    hide PartitionInv, WindowsOf, Get, Put;
    var s', x := Apply(c, s, a), s.pc[a.t];
    if x.Reading? {
      WindowsRead(c, s, a.t, f);
    } else if x.Choose? {
      WindowsChoose(c, s, a.t, f);
    } else {
      if InBoundary(x) {
        Holder(s, a.t);
        if InBoundary(s'.pc[a.t]) { Holder(s', a.t); }
      } else {
        Outside(c, s, a);
      }
      WindowsSame(s, s', f);
    }
  }

  // ---------- Due times ----------

  lemma DuesSame(c: Config, s: State, s': State, t: Tid)
    requires DuesInv(c, s) && t in s.pc && t in s'.pc && s'.pc == s.pc[t := s'.pc[t]]
    requires s'.due == s.due && s'.dues == s.dues
    requires Overdue(s'.pc[t]) ==> s.due < End(s'.pc[t].call)
    ensures DuesInv(c, s')
  {
  }

  /** Only the re-check leads a thread past the due time, and the call stays the same. */
  lemma OverdueNext(c: Config, s: State, a: Action)
    requires Enabled(c, s, a) && !a.Schedule? && (Overdue(s.pc[a.t]) ==> s.due < End(s.pc[a.t].call))
    ensures a.t in Apply(c, s, a).pc
    ensures Overdue(Apply(c, s, a).pc[a.t]) ==> s.due < End(Apply(c, s, a).pc[a.t].call)
  {
    hide Add, Read, Reset, Get, Put;
    FrameStep(c, s, a);
  }

  lemma DuesSchedule(c: Config, s: State, a: Action)
    requires Sound(c) && LockInv(s) && DuesInv(c, s) && Enabled(c, s, a) && a.Schedule?
    ensures DuesInv(c, Apply(c, s, a))
  {
    Holder(s, a.t);
    hide LockInv, Get, Put;
    assert Apply(c, s, a).due > s.due + c.minWindow;
  }

  lemma DuesStep(c: Config, s: State, a: Action)
    requires Sound(c) && LockInv(s) && DuesInv(c, s) && Enabled(c, s, a)
    ensures DuesInv(c, Apply(c, s, a))
  {
    if a.Schedule? {
      DuesSchedule(c, s, a);
    } else {
      FrameStep(c, s, a);
      OverdueNext(c, s, a);
      hide Apply;
      DuesSame(c, s, Apply(c, s, a), a.t);
    }
  }

  lemma StepKeeps(c: Config, s: State, a: Action)
    requires Sound(c) && Inv(c, s) && Enabled(c, s, a)
    ensures Inv(c, Apply(c, s, a))
  {
    hide LockInv, IdsInv, PendingInv, Partition, WindowsOf, DuesInv, Apply, Enabled;
    LockStep(c, s, a);
    IdsStep(c, s, a);
    PendingStep(c, s, a);
    DuesStep(c, s, a);
    FrameStep(c, s, a);
    forall f: Field
      ensures Partition(Apply(c, s, a), f) && WindowsOf(Apply(c, s, a), f)
    {
      PartitionStep(c, s, a, f);
      WindowsStep(c, s, a, f);
    }
  }

  lemma {:induction false} RunKeeps(c: Config, s: State, actions: seq<Action>)
    requires Sound(c) && Inv(c, s) && LegalRun(c, s, actions)
    ensures Inv(c, Execute(c, s, actions))
    decreases |actions|
  {
    hide Inv, Apply, Enabled;
    if actions != [] {
      StepKeeps(c, s, actions[0]);
      RunKeeps(c, Apply(c, s, actions[0]), actions[1..]);
    }
  }

  lemma InitialHolds(c: Config, s: State)
    requires Initial(s)
    ensures Inv(c, s)
  {
  }

  // ---------- What every run guarantees ----------

  function TotalRead(windows: seq<Fields>, f: Field): nat {
    if windows == [] then 0 else TotalRead(windows[..|windows| - 1], f) + |Get(windows[|windows| - 1], f)|
  }

  lemma {:induction false} UnionSize(windows: seq<Fields>, f: Field)
    requires Apart(windows, f)
    ensures |Union(windows, f)| == TotalRead(windows, f)
  {
    if windows != [] {
      var before, last := windows[..|windows| - 1], windows[|windows| - 1];
      UnionSize(before, f);
      ApartFromUnion(before, last, f);
    }
  }

  lemma {:induction false} ApartFromUnion(windows: seq<Fields>, last: Fields, f: Field)
    requires forall i | 0 <= i < |windows| :: Get(windows[i], f) !! Get(last, f)
    ensures Union(windows, f) !! Get(last, f)
  {
    if windows != [] {
      ApartFromUnion(windows[..|windows| - 1], last, f);
    }
  }

  /** The samples added to an aggregate are those counted in the windows, plus those erased between
      a read and a reset, plus those still in the two slots. */
  ghost predicate AddsUp(s: State, f: Field) {
    && |s.slots| == 2
    && |Get(s.recorded, f)|
       == TotalRead(s.windows, f) + |Get(s.erased, f)| + |Get(s.slots[0], f)| + |Get(s.slots[1], f)|
  }

  /** Between boundaries, in every interleaving and for every aggregate, the counts add up and no
      sample is in two windows. */
  lemma CountsAddUp(c: Config, s: State, actions: seq<Action>, f: Field)
    requires Sound(c) && Initial(s) && LegalRun(c, s, actions) && Execute(c, s, actions).lock == None
    ensures AddsUp(Execute(c, s, actions), f) && Apart(Execute(c, s, actions).windows, f)
  {
    hide LockInv, IdsInv, DuesInv, Partition, WindowsOf, AddsUp, Initial, LegalRun, Execute;
    InitialHolds(c, s);
    RunKeeps(c, s, actions);
    BetweenBoundaries(Execute(c, s, actions), f);
  }

  lemma BetweenBoundaries(s: State, f: Field)
    requires |s.slots| == 2 && Partition(s, f) && WindowsOf(s, f) && PendingInv(s) && s.lock == None
    ensures AddsUp(s, f) && Apart(s.windows, f)
  {
    hide Get, Union, TotalRead, Apart;
    UnionSize(s.windows, f);
    FourParts(Get(s.delivered, f), Get(s.erased, f), Get(s.slots[0], f), Get(s.slots[1], f));
  }

  lemma FourParts(a: set<Id>, b: set<Id>, c: set<Id>, d: set<Id>)
    requires a !! b && c !! d && b !! c && b !! d && a !! c && a !! d
    ensures |a + b + c + d| == |a| + |b| + |c| + |d|
  {
    assert |a + b| == |a| + |b|;
    assert |a + b + c| == |a + b| + |c|;
    assert |a + b + c + d| == |a + b + c| + |d|;
  }

  /** At any moment, also in the middle of a boundary: every sample added to an aggregate is in one
      place, except that what the boundary under way has read is still in its slot. */
  lemma EverySampleOnePlace(c: Config, s: State, actions: seq<Action>, f: Field)
    requires Sound(c) && Initial(s) && LegalRun(c, s, actions)
    ensures
      var s' := Execute(c, s, actions);
      |s'.slots| == 2 && Partition(s', f) && WindowsOf(s', f)
  {
    InitialHolds(c, s);
    RunKeeps(c, s, actions);
  }

  /** Boundaries exclude each other, and each moves the due time on by more than the minimum window. */
  lemma BoundariesExclusive(c: Config, s: State, actions: seq<Action>)
    requires Sound(c) && Initial(s) && LegalRun(c, s, actions)
    ensures
      var s' := Execute(c, s, actions);
      && (forall t, u | t in s'.pc && u in s'.pc && InBoundary(s'.pc[t]) && InBoundary(s'.pc[u]) :: t == u)
      && s'.dues != [] && s'.due == s'.dues[|s'.dues| - 1]
      && (forall i | 0 <= i < |s'.dues| - 1 :: s'.dues[i] + c.minWindow < s'.dues[i + 1])
  {
    InitialHolds(c, s);
    RunKeeps(c, s, actions);
    var s' := Execute(c, s, actions);
    hide Execute, LegalRun, Initial, IdsInv, PartitionInv, WindowsInv, PendingInv;
    assert forall t | t in s'.pc && InBoundary(s'.pc[t]) :: s'.lock == Some(t);
  }
}
