/** One call of `WindowedLimit::OnSample` that nobody interrupts, as a run of the interleaving
    machine: every field of the active slot gets the sample, and a call past the due time closes the
    window without losing anything. */
module WindowedSolo {
  import opened Counting
  import opened Windowed
  import opened WindowedInterleaving
  import SampleWindows
  import WindowedInvariant

  // ---------- Runs of one thread ----------

  ghost predicate OnlyBy(t: Tid, actions: seq<Action>) { forall i | 0 <= i < |actions| :: actions[i].t == t }

  /** A run of thread t alone leads from s to s'. */
  ghost predicate Solo(c: Config, t: Tid, s: State, s': State) {
    exists actions :: LegalRun(c, s, actions) && Execute(c, s, actions) == s' && OnlyBy(t, actions)
  }

  lemma SoloSelf(c: Config, t: Tid, s: State)
    ensures Solo(c, t, s, s)
  {
    assert LegalRun(c, s, []) && Execute(c, s, []) == s && OnlyBy(t, []);
  }

  lemma SoloStep(c: Config, s: State, a: Action, s': State)
    requires Enabled(c, s, a) && Solo(c, a.t, Apply(c, s, a), s')
    ensures Solo(c, a.t, s, s')
  {
    var next := Apply(c, s, a);
    var rest :| LegalRun(c, next, rest) && Execute(c, next, rest) == s' && OnlyBy(a.t, rest);
    hide Apply, Enabled;
    var actions := [a] + rest;
    assert actions[1..] == rest;
    assert forall i | 0 < i < |actions| :: actions[i] == rest[i - 1];
    assert LegalRun(c, s, actions) && Execute(c, s, actions) == s' && OnlyBy(a.t, actions);
  }

  lemma GotoTwice(s: State, t: Tid, x: Pc, y: Pc)
    ensures Goto(Goto(s, t, x), t, y) == Goto(s, t, y)
    ensures t in s.pc && s.pc[t] == y ==> Goto(s, t, y) == s
  {
    assert s.pc[t := x][t := y] == s.pc[t := y];
    assert t in s.pc && s.pc[t] == y ==> s.pc[t := y] == s.pc;
  }

  // ---------- Adding the sample ----------

  /** The sample in every field; in the drop flag only if it reports a drop. */
  function AddedAll(x: Fields, id: Id, drop: bool): Fields {
    Fields(x.count + {id}, x.sum + {id}, x.least + {id}, x.most + {id}, if drop then x.drop + {id} else x.drop)
  }

  /** The active slot has the sample `id` in all its fields. */
  function Recorded(s: State, id: Id, drop: bool): State
    requires s.active < |s.slots|
  {
    s.(slots := s.slots[s.active := AddedAll(s.slots[s.active], id, drop)], recorded := AddedAll(s.recorded, id, drop))
  }

  lemma SoloAdd(c: Config, s: State, t: Tid, call: Call, id: Id, f: Field, s': State)
    requires t in s.pc && |s.slots| == 2 && s.active < 2
    requires Solo(c, t, Goto(Add(s, id, s.active, f), t, AfterAdd(call, id, s.active, f)), s')
    ensures Solo(c, t, Goto(s, t, Adding(call, id, s.active, f)), s')
  {
    var x := Adding(call, id, s.active, f);
    var m := Goto(s, t, x);
    GotoTwice(s, t, x, AfterAdd(call, id, s.active, f));
    assert Apply(c, m, Advance(t)) == Goto(Add(s, id, s.active, f), t, AfterAdd(call, id, s.active, f));
    hide Solo, Apply;
    SoloStep(c, m, Advance(t), s');
  }

  /** The fields one after the other. */
  function AddedFour(s: State, id: Id): State
    requires |s.slots| == 2 && s.active < 2
  {
    Add(Add(Add(Add(s, id, s.active, Count), id, s.active, Sum), id, s.active, Least), id, s.active, Most)
  }

  lemma AddedInTurn(s: State, id: Id)
    requires |s.slots| == 2 && s.active < 2
    ensures AddedFour(s, id) == Recorded(s, id, false)
    ensures Add(Recorded(s, id, false), id, s.active, Drop) == Recorded(s, id, true)
  {
    assert AddedFour(s, id).slots == Recorded(s, id, false).slots;
    assert Add(Recorded(s, id, false), id, s.active, Drop).slots == Recorded(s, id, true).slots;
  }

  lemma SoloAddAll(c: Config, s: State, t: Tid, call: Call, id: Id, s': State)
    requires t in s.pc && |s.slots| == 2 && s.active < 2
    requires Solo(c, t, Goto(Recorded(s, id, call.drop), t, LoadDue(call)), s')
    ensures Solo(c, t, Goto(s, t, Adding(call, id, s.active, Count)), s')
  {
    hide Solo, Put, Get, AddedAll;
    AddedInTurn(s, id);
    var s1 := Add(s, id, s.active, Count);
    var s2 := Add(s1, id, s.active, Sum);
    var s3 := Add(s2, id, s.active, Least);
    if call.drop {
      SoloAdd(c, Recorded(s, id, false), t, call, id, Drop, s');
    }
    SoloAdd(c, s3, t, call, id, Most, s');
    SoloAdd(c, s2, t, call, id, Least, s');
    SoloAdd(c, s1, t, call, id, Sum, s');
    SoloAdd(c, s, t, call, id, Count, s');
  }

  // ---------- Closing the window ----------

  lemma PastDue(c: Config, s: State, t: Tid, call: Call)
    requires t in s.pc && |s.slots| == 2 && s.active < 2 && s.lock == None && s.due < End(call)
    ensures var (s1, s2) := (Goto(s, t, LoadDue(call)), Goto(s, t, TryLock(call)));
      && Enabled(c, s1, Advance(t)) && Apply(c, s1, Advance(t)) == s2
      && Enabled(c, s2, Lock(t, false))
      && Apply(c, s2, Lock(t, false)) == Goto(s, t, Recheck(call)).(lock := Some(t))
  {
    GotoTwice(s, t, LoadDue(call), TryLock(call));
    GotoTwice(s, t, TryLock(call), Recheck(call));
  }

  lemma StillPastDue(c: Config, s: State, t: Tid, call: Call)
    requires t in s.pc && |s.slots| == 2 && s.active < 2 && s.due < End(call)
    ensures var (s3, s4) := (Goto(s, t, Recheck(call)), Goto(s, t, Choose(call)));
      && Enabled(c, s3, Advance(t)) && Apply(c, s3, Advance(t)) == s4
      && Enabled(c, s4, Advance(t))
      && Apply(c, s4, Advance(t)) == Goto(s, t, Reading(call, s.active, 0)).(reading := NONE)
  {
    GotoTwice(s, t, Recheck(call), Choose(call));
    GotoTwice(s, t, Choose(call), Reading(call, s.active, 0));
  }

  /** Past the due time, with the try-lock free: the boundary begins. */
  lemma SoloTake(c: Config, s: State, t: Tid, call: Call, s': State)
    requires t in s.pc && |s.slots| == 2 && s.active < 2 && s.lock == None && s.due < End(call)
    requires Solo(c, t, Goto(s.(lock := Some(t), reading := NONE), t, Reading(call, s.active, 0)), s')
    ensures Solo(c, t, Goto(s, t, LoadDue(call)), s')
  {
    hide Solo, Apply, Enabled;
    var v := s.(lock := Some(t));
    PastDue(c, s, t, call);
    StillPastDue(c, v, t, call);
    SoloStep(c, Goto(v, t, Choose(call)), Advance(t), s');
    SoloStep(c, Goto(v, t, Recheck(call)), Advance(t), s');
    SoloStep(c, Goto(s, t, TryLock(call)), Lock(t, false), s');
    SoloStep(c, Goto(s, t, LoadDue(call)), Advance(t), s');
  }

  function Merged(x: Fields, y: Fields): Fields {
    Fields(x.count + y.count, x.sum + y.sum, x.least + y.least, x.most + y.most, x.drop + y.drop)
  }

  const ALL := {Count, Sum, Least, Most, Drop}

  /** The slot's five fields have been read. */
  function ReadAll(s: State, slot: nat): State
    requires slot < |s.slots|
  {
    var x := s.slots[slot];
    s.(reading := x, delivered := Merged(s.delivered, x), pending := ALL, windows := s.windows + [x])
  }

  /** What a boundary reads for the mean, and what it reads after that. */
  function ReadThree(s: State, slot: nat): State
    requires slot < |s.slots|
  {
    Read(Read(Read(s, slot, Least), slot, Count), slot, Sum)
  }

  function ReadSix(s: State, slot: nat): State
    requires slot < |s.slots|
  {
    Read(Read(Read(ReadThree(s, slot), slot, Most), slot, Count), slot, Drop)
  }

  lemma ReadInTurn(s: State, slot: nat)
    requires slot < |s.slots| && s.reading == NONE && s.pending == {}
    ensures ReadSix(s, slot).(windows := s.windows + [ReadSix(s, slot).reading]) == ReadAll(s, slot)
  {
    var (v, w) := (ReadSix(s, slot), ReadAll(s, slot));
    assert v.reading == w.reading;
    assert v.pending == {} + {Least} + {Count} + {Sum} + {Most} + {Count} + {Drop} == ALL;
    assert v.delivered.count == w.delivered.count;
    assert v.delivered == w.delivered;
  }

  lemma SoloRead(c: Config, s: State, t: Tid, call: Call, slot: nat, step: nat, s': State)
    requires t in s.pc && |s.slots| == 2 && s.active < 2 && slot < 2 && step < 5
    requires step == 2 ==> s.reading.count != {}
    requires Solo(c, t, Goto(Read(s, slot, ReadAt(step)), t, Reading(call, slot, step + 1)), s')
    ensures Solo(c, t, Goto(s, t, Reading(call, slot, step)), s')
  {
    var m := Goto(s, t, Reading(call, slot, step));
    GotoTwice(s, t, Reading(call, slot, step), Reading(call, slot, step + 1));
    assert Apply(c, m, Advance(t)) == Goto(Read(s, slot, ReadAt(step)), t, Reading(call, slot, step + 1));
    hide Solo, Apply;
    SoloStep(c, m, Advance(t), s');
  }

  lemma SoloLastRead(c: Config, s: State, t: Tid, call: Call, slot: nat, s': State)
    requires t in s.pc && |s.slots| == 2 && s.active < 2 && slot < 2
    requires var v := Read(s, slot, Drop);
      Solo(c, t, Goto(v.(windows := s.windows + [v.reading]), t, Flip(call, slot)), s')
    ensures Solo(c, t, Goto(s, t, Reading(call, slot, 5)), s')
  {
    var m := Goto(s, t, Reading(call, slot, 5));
    var v := Read(s, slot, Drop);
    GotoTwice(s, t, Reading(call, slot, 5), Flip(call, slot));
    assert Apply(c, m, Advance(t)) == Goto(v.(windows := s.windows + [v.reading]), t, Flip(call, slot));
    hide Solo, Apply;
    SoloStep(c, m, Advance(t), s');
  }

  lemma CountRead(s: State, slot: nat)
    requires slot < |s.slots|
    ensures Read(Read(s, slot, Least), slot, Count).reading.count == s.slots[slot].count
  {
  }

  lemma SoloReadRest(c: Config, s: State, t: Tid, call: Call, slot: nat, s': State)
    requires t in s.pc && |s.slots| == 2 && s.active < 2 && slot < 2
    requires var v := Read(Read(Read(s, slot, Most), slot, Count), slot, Drop);
      Solo(c, t, Goto(v.(windows := s.windows + [v.reading]), t, Flip(call, slot)), s')
    ensures Solo(c, t, Goto(s, t, Reading(call, slot, 3)), s')
  {
    hide Solo, Goto, Put, Get;
    var s1 := Read(s, slot, Most);
    var s2 := Read(s1, slot, Count);
    SoloLastRead(c, s2, t, call, slot, s');
    SoloRead(c, s1, t, call, slot, 4, s');
    SoloRead(c, s, t, call, slot, 3, s');
  }

  lemma SoloReadThree(c: Config, s: State, t: Tid, call: Call, slot: nat, s': State)
    requires t in s.pc && |s.slots| == 2 && s.active < 2 && slot < 2 && s.slots[slot].count != {}
    requires Solo(c, t, Goto(ReadThree(s, slot), t, Reading(call, slot, 3)), s')
    ensures Solo(c, t, Goto(s, t, Reading(call, slot, 0)), s')
  {
    CountRead(s, slot);
    hide Solo, Goto, Put, Get;
    var s1 := Read(s, slot, Least);
    var s2 := Read(s1, slot, Count);
    SoloRead(c, s2, t, call, slot, 2, s');
    SoloRead(c, s1, t, call, slot, 1, s');
    SoloRead(c, s, t, call, slot, 0, s');
  }

  lemma ReadsOnly(s: State, slot: nat)
    requires slot < |s.slots|
    ensures var v := ReadThree(s, slot);
      v.pc == s.pc && v.slots == s.slots && v.active == s.active && v.windows == s.windows
  {
  }

  /** A boundary that meets a sample reads all five fields of its slot. */
  lemma SoloReadAll(c: Config, s: State, t: Tid, call: Call, slot: nat, s': State)
    requires t in s.pc && |s.slots| == 2 && s.active < 2 && slot < 2
    requires s.reading == NONE && s.pending == {} && s.slots[slot].count != {}
    requires Solo(c, t, Goto(ReadAll(s, slot), t, Flip(call, slot)), s')
    ensures Solo(c, t, Goto(s, t, Reading(call, slot, 0)), s')
  {
    hide Solo, Goto, Read, ReadAll, ReadThree;
    ReadsOnly(s, slot);
    ReadInTurn(s, slot);
    SoloReadRest(c, ReadThree(s, slot), t, call, slot, s');
    SoloReadThree(c, s, t, call, slot, s');
  }

  /** The due time a boundary sets. */
  function NextDue(c: Config, call: Call, least: int): int {
    End(call) + if least == SampleWindows.INT64_MAX then c.minWindow else WindowLength(c, least)
  }

  /** The other slot is active, and the next due time set. */
  function Scheduled(s: State, slot: nat, due: int): State
    requires slot < 2
  {
    s.(active := 1 - slot, due := due, dues := s.dues + [due])
  }

  lemma SoloSchedule(c: Config, s: State, t: Tid, call: Call, slot: nat, least: int, s': State)
    requires t in s.pc && |s.slots| == 2 && s.active < 2 && slot < 2
    requires Solo(c, t, Goto(Scheduled(s, slot, NextDue(c, call, least)), t, Resetting(slot, Count)), s')
    ensures Solo(c, t, Goto(s, t, Flip(call, slot)), s')
  {
    var s1 := Goto(s, t, Flip(call, slot));
    var s2 := Goto(s, t, Scheduling(call, slot)).(active := 1 - slot);
    GotoTwice(s, t, Flip(call, slot), Scheduling(call, slot));
    GotoTwice(s, t, Scheduling(call, slot), Resetting(slot, Count));
    assert Apply(c, s1, Advance(t)) == s2;
    assert Apply(c, s2, Schedule(t, least))
      == Goto(Scheduled(s, slot, NextDue(c, call, least)), t, Resetting(slot, Count));
    hide Solo, Apply;
    SoloStep(c, s2, Schedule(t, least), s');
    SoloStep(c, s1, Advance(t), s');
  }

  function ResetFive(s: State, slot: nat): State
    requires slot < |s.slots|
  {
    Reset(Reset(Reset(Reset(Reset(s, slot, Count), slot, Sum), slot, Least), slot, Most), slot, Drop)
  }

  /** A slot whose fields have all been read is emptied without losing a sample. */
  lemma ResetInTurn(s: State, slot: nat)
    requires slot < |s.slots| && s.reading == s.slots[slot] && s.pending == ALL
    ensures ResetFive(s, slot) == s.(slots := s.slots[slot := NONE], pending := {})
  {
    var v := ResetFive(s, slot);
    assert v.slots == s.slots[slot := NONE];
    assert v.pending == ALL - {Count} - {Sum} - {Least} - {Most} - {Drop} == {};
    assert v.erased == s.erased;
  }

  lemma SoloReset(c: Config, s: State, t: Tid, slot: nat, f: Field, s': State)
    requires t in s.pc && |s.slots| == 2 && s.active < 2 && slot < 2
    requires Solo(c, t, Goto(Reset(s, slot, f), t, AfterReset(slot, f)), s')
    ensures Solo(c, t, Goto(s, t, Resetting(slot, f)), s')
  {
    var m := Goto(s, t, Resetting(slot, f));
    GotoTwice(s, t, Resetting(slot, f), AfterReset(slot, f));
    assert Apply(c, m, Advance(t)) == Goto(Reset(s, slot, f), t, AfterReset(slot, f));
    hide Solo, Apply;
    SoloStep(c, m, Advance(t), s');
  }

  lemma SoloUnlock(c: Config, s: State, t: Tid)
    requires t in s.pc && |s.slots| == 2 && s.active < 2
    ensures Solo(c, t, Goto(s, t, Unlocking), Goto(s, t, Idle).(lock := None))
  {
    var m := Goto(s, t, Unlocking);
    GotoTwice(s, t, Unlocking, Idle);
    assert Apply(c, m, Advance(t)) == Goto(s, t, Idle).(lock := None);
    SoloSelf(c, t, Goto(s, t, Idle).(lock := None));
    hide Solo, Apply;
    SoloStep(c, m, Advance(t), Goto(s, t, Idle).(lock := None));
  }

  lemma SoloResetAll(c: Config, s: State, t: Tid, slot: nat)
    requires t in s.pc && |s.slots| == 2 && s.active < 2 && slot < 2
    requires s.reading == s.slots[slot] && s.pending == ALL
    ensures Solo(c, t, Goto(s, t, Resetting(slot, Count)),
      Goto(s.(slots := s.slots[slot := NONE], pending := {}), t, Idle).(lock := None))
  {
    ResetInTurn(s, slot);
    hide Solo, Put, Get;
    var s1 := Reset(s, slot, Count);
    var s2 := Reset(s1, slot, Sum);
    var s3 := Reset(s2, slot, Least);
    var s4 := Reset(s3, slot, Most);
    var s5 := Reset(s4, slot, Drop);
    var s' := Goto(s5, t, Idle).(lock := None);
    SoloUnlock(c, s5, t);
    SoloReset(c, s4, t, slot, Drop, s');
    SoloReset(c, s3, t, slot, Most, s');
    SoloReset(c, s2, t, slot, Least, s');
    SoloReset(c, s1, t, slot, Sum, s');
    SoloReset(c, s, t, slot, Count, s');
  }

  /** The window of the active slot has been handed over whole: the other slot, as it was, is active,
      and this one is empty. */
  function Closed(c: Config, s: State, call: Call, least: int): State
    requires |s.slots| == 2 && s.active < 2
  {
    var (x, due) := (s.slots[s.active], NextDue(c, call, least));
    s.(slots := s.slots[s.active := NONE], active := 1 - s.active, due := due, dues := s.dues + [due],
       windows := s.windows + [x], delivered := Merged(s.delivered, x), reading := x)
  }

  /** From the check of the due time on: the window is closed exactly past it. */
  lemma SoloClose(c: Config, s: State, t: Tid, call: Call, least: int)
    requires t in s.pc && s.pc[t].Idle? && |s.slots| == 2 && s.active < 2
    requires s.lock == None && s.pending == {} && s.slots[s.active].count != {}
    ensures Solo(c, t, Goto(s, t, LoadDue(call)), if s.due < End(call) then Closed(c, s, call, least) else s)
  {
    hide Solo, Merged, NextDue;
    if s.due < End(call) {
      var slot := s.active;
      var v := s.(lock := Some(t), reading := NONE);
      var w := ReadAll(v, slot);
      var u := Scheduled(w, slot, NextDue(c, call, least));
      var s' := Goto(u.(slots := u.slots[slot := NONE], pending := {}), t, Idle).(lock := None);
      GotoTwice(s, t, Idle, Idle);
      assert s' == Closed(c, s, call, least);
      SoloResetAll(c, u, t, slot);
      SoloSchedule(c, w, t, call, slot, least, s');
      SoloReadAll(c, v, t, call, slot, s');
      SoloTake(c, s, t, call, s');
    } else {
      SoloInTime(c, s, t, call);
    }
  }

  lemma SoloInTime(c: Config, s: State, t: Tid, call: Call)
    requires t in s.pc && s.pc[t].Idle? && |s.slots| == 2 && s.active < 2 && End(call) <= s.due
    ensures Solo(c, t, Goto(s, t, LoadDue(call)), s)
  {
    var m := Goto(s, t, LoadDue(call));
    GotoTwice(s, t, LoadDue(call), Idle);
    assert Apply(c, m, Advance(t)) == s;
    SoloSelf(c, t, s);
    hide Solo, Apply;
    SoloStep(c, m, Advance(t), s);
  }

  // ---------- The whole call ----------

  /** A call leaves no trace below the threshold; otherwise its sample is in every field of the slot
      that was active, and past the due time that slot's window is closed. */
  function Observed(c: Config, s: State, call: Call, least: int): State
    requires |s.slots| == 2 && s.active < 2
  {
    if call.rtt < c.threshold then s
    else
      var v := Recorded(s, s.nextId, call.drop).(nextId := s.nextId + 1);
      if s.due < End(call) then Closed(c, v, call, least) else v
  }

  lemma SoloEnter(c: Config, s: State, t: Tid, call: Call, s': State)
    requires t in s.pc && s.pc[t].Idle? && |s.slots| == 2 && s.active < 2 && c.threshold <= call.rtt
    requires Solo(c, t, Goto(s.(nextId := s.nextId + 1), t, Adding(call, s.nextId, s.active, Count)), s')
    ensures Solo(c, t, s, s')
  {
    var s1 := Goto(s, t, Entered(call, s.nextId)).(nextId := s.nextId + 1);
    GotoTwice(s, t, Entered(call, s.nextId), Adding(call, s.nextId, s.active, Count));
    assert Apply(c, s, OnSample(t, call)) == s1;
    assert Apply(c, s1, Advance(t))
      == Goto(s.(nextId := s.nextId + 1), t, Adding(call, s.nextId, s.active, Count));
    hide Solo, Apply;
    SoloStep(c, s1, Advance(t), s');
    SoloStep(c, s, OnSample(t, call), s');
  }

  lemma SoloSample(c: Config, s: State, t: Tid, call: Call, least: int)
    requires LockInv(s) && PendingInv(s) && t in s.pc && s.pc[t].Idle? && s.lock == None
    ensures Solo(c, t, s, Observed(c, s, call, least))
  {
    hide Solo, NextDue, Merged;
    if call.rtt < c.threshold {
      SoloSelf(c, t, s);
    } else {
      var v := s.(nextId := s.nextId + 1);
      var w := Recorded(v, s.nextId, call.drop);
      assert s.nextId in w.slots[w.active].count;
      SoloClose(c, w, t, call, least);
      SoloAddAll(c, v, t, call, s.nextId, Observed(c, s, call, least));
      SoloEnter(c, s, t, call, Observed(c, s, call, least));
    }
  }

  /** The state stands for the one-call-at-a-time window w: as many samples in the active slot, the
      same due time, and the other slot empty. */
  ghost predicate Shows(s: State, w: Window) {
    && |s.slots| == 2 && s.active < 2
    && |s.slots[s.active].count| == |w.samples| && s.due == w.due && s.slots[1 - s.active] == NONE
  }

  lemma NewId(s: State)
    requires |s.slots| == 2 && s.active < 2 && IdsInv(s) && PartitionInv(s)
    ensures s.nextId !in s.slots[s.active].count
  {
    assert Partition(s, Count);
    assert Get(s.slots[s.active], Count) <= Get(s.recorded, Count);
  }

  lemma LeastFits(c: Config, call: Call, samples: seq<SampleWindows.Sample>)
    requires Windowed.Fits(c, call)
    ensures SampleWindows.LeastRtt(samples + [SampleOf(call)]) < SampleWindows.INT64_MAX
  {
    SampleWindows.Extended(samples, SampleOf(call));
  }

  lemma CountedOnce(s: State, drop: bool)
    requires |s.slots| == 2 && s.active < 2 && s.nextId !in s.slots[s.active].count
    ensures var v := Recorded(s, s.nextId, drop);
      && |v.slots[s.active].count| == |s.slots[s.active].count| + 1
      && |v.slots| == 2 && v.active == s.active && v.due == s.due && v.slots[1 - s.active] == s.slots[1 - s.active]
  {
  }

  lemma StillShows(c: Config, s: State, call: Call, w: Window)
    requires Sound(c) && Windowed.Fits(c, call) && Shows(s, w) && s.nextId !in s.slots[s.active].count
    ensures Shows(Observed(c, s, call, SampleWindows.LeastRtt(w.samples + [SampleOf(call)])),
                  Windowed.Observed(c, w, call))
  {
    hide Recorded, WindowLength, SampleWindows.LeastRtt, Report, Merged;
    LeastFits(c, call, w.samples);
    CountedOnce(s, call.drop);
  }

  /** In every reachable state with the try-lock free, one thread's call alone is a run that ends as
      the call does in the one-call-at-a-time limit: the same count in the window and the same due
      time. Its sample is in exactly the fields it belongs in, a window past its due time is handed
      over whole, and nothing is erased unread. */
  lemma SampleIsAnUninterruptedCall(c: Config, start: State, actions: seq<Action>, t: Tid, call: Call, w: Window)
    requires Sound(c) && Windowed.Fits(c, call) && Initial(start) && LegalRun(c, start, actions)
    requires var s := Execute(c, start, actions); t in s.pc && s.pc[t].Idle? && s.lock == None && Shows(s, w)
    ensures var s := Execute(c, start, actions);
      var s' := Observed(c, s, call, SampleWindows.LeastRtt(w.samples + [SampleOf(call)]));
      && Solo(c, t, s, s') && Shows(s', Windowed.Observed(c, w, call)) && s'.erased == s.erased
  {
    hide Execute, LegalRun, Initial, Inv, Solo;
    WindowedInvariant.InitialHolds(c, start);
    WindowedInvariant.RunKeeps(c, start, actions);
    var s := Execute(c, start, actions);
    InvParts(c, s);
    var least := SampleWindows.LeastRtt(w.samples + [SampleOf(call)]);
    hide LockInv, PendingInv, IdsInv, PartitionInv;
    SoloSample(c, s, t, call, least);
    NewId(s);
    StillShows(c, s, call, w);
  }

  lemma InvParts(c: Config, s: State)
    requires Inv(c, s)
    ensures LockInv(s) && PendingInv(s) && IdsInv(s) && PartitionInv(s)
  {
  }
}
