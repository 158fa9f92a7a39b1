/** Whole programs over guard variables: acquires, moves, move assignments, completions and
    destructions in any legal order, with a cap that may change between calls. */
module GuardPrograms {
  import opened Guards

  type Var = int

  type Ticket = int

  /** A guard in a variable, with the number of the admission it stands for. */
  datatype Held = Held(guard: Guard, ticket: Ticket)

  datatype Completion = Completion(ticket: Ticket, status: Status)

  /** `admitted` numbers the admissions that count against the cap; `reports` lists the
      completions the limiter received for them, in order. */
  datatype World = World(ledger: Ledger, vars: map<Var, Held>, calls: nat, nextTicket: Ticket,
                         admitted: set<Ticket>, reports: seq<Completion>)

  const START := World(EMPTY_LEDGER, map[], 0, 0, {}, [])

  datatype Op =
    | TryAcquire(dst: Var, bypass: bool, cap: int)
    | Move(src: Var, dst: Var)
    | MoveAssign(src: Var, dst: Var)
    | Complete(v: Var, status: Status)
    | Destroy(v: Var)

  /** Scoping: new variables are fresh, used ones exist. */
  predicate Legal(w: World, op: Op) {
    match op
    case TryAcquire(dst, _, _) => dst !in w.vars
    case Move(src, dst) => src in w.vars && dst !in w.vars
    case MoveAssign(src, dst) => src in w.vars && dst in w.vars
    case Complete(v, _) => v in w.vars
    case Destroy(v) => v in w.vars
  }

  /** The guard in v reports if it is live. */
  function Report(w: World, v: Var, status: Status): World
    requires v in w.vars
  {
    var held := w.vars[v];
    if !Live(held.guard) then w
    else if held.guard.bypassed then w.(ledger := SlotCompleted(w.ledger, status, true))
    else w.(ledger := SlotCompleted(w.ledger, status, false),
            reports := w.reports + [Completion(held.ticket, status)])
  }

  function Detached(held: Held): Held { held.(guard := held.guard.(attached := false)) }

  function Step(w: World, op: Op): World
    requires Legal(w, op)
  {
    match op
    case TryAcquire(dst, bypass, cap) =>
      var v := w.(calls := w.calls + 1, nextTicket := w.nextTicket + 1);
      if bypass then
        v.(ledger := w.ledger.(bypassed := w.ledger.bypassed + 1),
           vars := w.vars[dst := Held(Guard(true, true, false), w.nextTicket)])
      else if w.ledger.inflight >= cap then
        v.(ledger := w.ledger.(rejected := w.ledger.rejected + 1))
      else
        v.(ledger := w.ledger.(inflight := w.ledger.inflight + 1), admitted := w.admitted + {w.nextTicket},
           vars := w.vars[dst := Held(Guard(true, false, false), w.nextTicket)])
    case Move(src, dst) =>
      w.(vars := w.vars[dst := w.vars[src]][src := Detached(w.vars[src])])
    case MoveAssign(src, dst) =>
      if src == dst then w else
        var v := Report(w, dst, Ignored);
        v.(vars := w.vars[dst := w.vars[src]][src := Detached(w.vars[src])])
    case Complete(x, status) =>
      var held := w.vars[x];
      var v := Report(w, x, status);
      v.(vars := w.vars[x := held.(guard := held.guard.(completed := held.guard.completed || held.guard.attached))])
    case Destroy(x) =>
      var v := Report(w, x, Ignored);
      v.(vars := w.vars - {x})
  }

  predicate LegalProgram(w: World, ops: seq<Op>)
    decreases |ops|
  {
    ops == [] || (Legal(w, ops[0]) && LegalProgram(Step(w, ops[0]), ops[1..]))
  }

  function Execute(w: World, ops: seq<Op>): World
    requires LegalProgram(w, ops)
    decreases |ops|
  {
    if ops == [] then w else Execute(Step(w, ops[0]), ops[1..])
  }

  predicate Counting(held: Held) { Live(held.guard) && !held.guard.bypassed }

  /** The guards that occupy a slot: which variable holds which admission. */
  function LiveSlots(vars: map<Var, Held>): map<Var, Ticket> {
    map v | v in vars && Counting(vars[v]) :: vars[v].ticket
  }

  function Reported(reports: seq<Completion>): set<Ticket> {
    if reports == [] then {}
    else Reported(reports[..|reports| - 1]) + {reports[|reports| - 1].ticket}
  }

  function Tickets(live: map<Var, Ticket>): set<Ticket> { set v | v in live :: live[v] }

  /** No admission is reported twice. */
  ghost predicate Once(reports: seq<Completion>) {
    reports == [] ||
    (Once(reports[..|reports| - 1]) && reports[|reports| - 1].ticket !in Reported(reports[..|reports| - 1]))
  }

  function CountOf(reports: seq<Completion>, status: Status): nat {
    if reports == [] then 0
    else CountOf(reports[..|reports| - 1], status) + if reports[|reports| - 1].status == status then 1 else 0
  }

  /** Every admission is in exactly one place: held by one live guard, or reported once. */
  ghost predicate OnePlace(live: map<Var, Ticket>, reports: seq<Completion>, admitted: set<Ticket>) {
    && (forall u, v | u in live && v in live && u != v :: live[u] != live[v])
    && Once(reports)
    && Tickets(live) !! Reported(reports)
    && admitted == Tickets(live) + Reported(reports)
  }

  /** The books balance. */
  ghost predicate Balanced(l: Ledger, live: nat, calls: nat, reports: seq<Completion>) {
    && l.inflight == live
    && l.success == CountOf(reports, Success)
    && l.ignored == CountOf(reports, Ignored)
    && l.dropped == CountOf(reports, Dropped)
    && l.samples == l.success + l.dropped
    && calls == l.rejected + l.bypassed + l.success + l.dropped + l.ignored + live
  }

  ghost predicate Inv(w: World) {
    var live := LiveSlots(w.vars);
    && OnePlace(live, w.reports, w.admitted)
    && Balanced(w.ledger, |live|, w.calls, w.reports)
    && (forall t | t in w.admitted :: t < w.nextTicket)
  }

  // ---------- The three ways a slot changes hands ----------

  lemma Rehoused(live: map<Var, Ticket>, src: Var, dst: Var, reports: seq<Completion>, admitted: set<Ticket>)
    requires OnePlace(live, reports, admitted) && src in live && dst !in live
    ensures OnePlace((live - {src})[dst := live[src]], reports, admitted)
    ensures |(live - {src})[dst := live[src]]| == |live|
  {
    var live' := (live - {src})[dst := live[src]];
    assert live'.Keys == live.Keys - {src} + {dst};
    assert |live'.Keys| == |live.Keys|;
    assert forall v | v in live && v != src :: v in live' && live'[v] == live[v];
    assert dst in live' && live'[dst] == live[src];
    assert Tickets(live') == Tickets(live);
  }

  lemma Released(live: map<Var, Ticket>, v: Var, status: Status, reports: seq<Completion>, admitted: set<Ticket>)
    requires OnePlace(live, reports, admitted) && v in live
    ensures OnePlace(live - {v}, reports + [Completion(live[v], status)], admitted)
    ensures |live - {v}| == |live| - 1
  {
    var live', reports' := live - {v}, reports + [Completion(live[v], status)];
    assert reports'[..|reports|] == reports;
    assert live'.Keys == live.Keys - {v};
    assert |live'.Keys| == |live.Keys| - 1;
    assert forall u | u in live && u != v :: u in live' && live'[u] == live[u];
    assert Tickets(live') == Tickets(live) - {live[v]};
  }

  lemma Taken(live: map<Var, Ticket>, dst: Var, t: Ticket, reports: seq<Completion>, admitted: set<Ticket>)
    requires OnePlace(live, reports, admitted) && dst !in live && t !in admitted
    ensures OnePlace(live[dst := t], reports, admitted + {t})
    ensures |live[dst := t]| == |live| + 1
  {
    hide Once, Reported, Tickets;
    TicketsWith(live, dst, t);
  }

  lemma TicketsWith(live: map<Var, Ticket>, dst: Var, t: Ticket)
    requires dst !in live
    ensures Tickets(live[dst := t]) == Tickets(live) + {t}
    ensures |live[dst := t]| == |live| + 1
    ensures forall u | u in live :: live[u] in Tickets(live)
  {
    var live' := live[dst := t];
    assert live'.Keys == live.Keys + {dst};
    assert |live'.Keys| == |live.Keys| + 1;
    assert forall u | u in live :: u in live' && live'[u] == live[u];
    assert dst in live' && live'[dst] == t;
  }

  // ---------- Steps ----------

  lemma MoveKeeps(w: World, src: Var, dst: Var)
    requires Inv(w) && src in w.vars && src != dst && (dst in w.vars ==> !Counting(w.vars[dst]))
    ensures Inv(w.(vars := w.vars[dst := w.vars[src]][src := Detached(w.vars[src])]))
  {
    hide OnePlace, Balanced;
    var live, vars' := LiveSlots(w.vars), w.vars[dst := w.vars[src]][src := Detached(w.vars[src])];
    if Counting(w.vars[src]) {
      Rehoused(live, src, dst, w.reports, w.admitted);
      assert LiveSlots(vars') == (live - {src})[dst := live[src]];
    } else {
      assert LiveSlots(vars') == live;
    }
  }

  /** A guard that holds a slot reports, and is not live afterwards. */
  lemma SlotReported(w: World, x: Var, status: Status, vars: map<Var, Held>)
    requires Inv(w) && x in w.vars && Counting(w.vars[x])
    requires LiveSlots(vars) == LiveSlots(w.vars) - {x}
    ensures Inv(Report(w, x, status).(vars := vars))
  {
    hide OnePlace, Balanced, Reported, Once, SlotCompleted;
    var live := LiveSlots(w.vars);
    Released(live, x, status, w.reports, w.admitted);
    BalancedAfterReport(w.ledger, |live|, w.calls, w.reports, Completion(live[x], status));
  }

  /** A guard that holds no slot reports nothing that counts. */
  lemma NothingReported(w: World, x: Var, status: Status, vars: map<Var, Held>)
    requires Inv(w) && x in w.vars && !Counting(w.vars[x])
    requires LiveSlots(vars) == LiveSlots(w.vars) - {x}
    ensures Inv(Report(w, x, status).(vars := vars))
  {
    hide OnePlace, Balanced, Reported, Once, SlotCompleted;
    BypassLeavesLedger(w.ledger, status);
    assert LiveSlots(vars) == LiveSlots(w.vars);
  }

  lemma ReportKeeps(w: World, x: Var, status: Status, vars: map<Var, Held>)
    requires Inv(w) && x in w.vars
    requires LiveSlots(vars) == LiveSlots(w.vars) - {x}
    ensures Inv(Report(w, x, status).(vars := vars))
  {
    hide Inv, Report, LiveSlots;
    if Counting(w.vars[x]) {
      SlotReported(w, x, status, vars);
    } else {
      NothingReported(w, x, status, vars);
    }
  }

  lemma SlotGone(before: map<Var, Held>, x: Var, after: map<Var, Held>)
    requires x in before
    requires after == before - {x} || (x in after && !Counting(after[x]) && after == before[x := after[x]])
    ensures LiveSlots(after) == LiveSlots(before) - {x}
  {
    assert LiveSlots(after).Keys == (LiveSlots(before) - {x}).Keys;
  }

  lemma BypassLeavesLedger(l: Ledger, status: Status)
    ensures SlotCompleted(l, status, true) == l
  {
  }

  lemma BalancedAfterReport(l: Ledger, live: nat, calls: nat, reports: seq<Completion>, c: Completion)
    requires Balanced(l, live, calls, reports) && 0 < live
    ensures Balanced(SlotCompleted(l, c.status, false), live - 1, calls, reports + [c])
  {
    assert (reports + [c])[..|reports|] == reports;
  }

  lemma AcquireKeeps(w: World, op: Op)
    requires Inv(w) && op.TryAcquire? && Legal(w, op)
    ensures Inv(Step(w, op))
  {
    hide OnePlace, CountOf;
    var live := LiveSlots(w.vars);
    if !op.bypass && w.ledger.inflight < op.cap {
      Taken(live, op.dst, w.nextTicket, w.reports, w.admitted);
      assert LiveSlots(Step(w, op).vars) == live[op.dst := w.nextTicket];
    } else {
      assert LiveSlots(Step(w, op).vars) == live;
    }
  }

  lemma StepKeeps(w: World, op: Op)
    requires Inv(w) && Legal(w, op)
    ensures Inv(Step(w, op))
  {
    hide OnePlace, Balanced, CountOf, LiveSlots;
    match op
    case TryAcquire(_, _, _) => AcquireKeeps(w, op);
    case Move(src, dst) => MoveKeeps(w, src, dst);
    case MoveAssign(src, dst) =>
      if src != dst {
        var without := w.vars - {dst};
        SlotGone(w.vars, dst, without);
        ReportKeeps(w, dst, Ignored, without);
        assert without[dst := w.vars[src]] == w.vars[dst := w.vars[src]];
        MoveKeeps(Report(w, dst, Ignored).(vars := without), src, dst);
      }
    case Complete(x, status) =>
      SlotGone(w.vars, x, Step(w, op).vars);
      ReportKeeps(w, x, status, Step(w, op).vars);
    case Destroy(x) =>
      SlotGone(w.vars, x, Step(w, op).vars);
      ReportKeeps(w, x, Ignored, Step(w, op).vars);
  }

  /** After every legal program each admission is held by exactly one live guard or was reported
      exactly once, and the counters say so. */
  lemma {:induction false} LedgerBalances(w: World, ops: seq<Op>)
    requires Inv(w) && LegalProgram(w, ops)
    ensures Inv(Execute(w, ops))
    decreases |ops|
  {
    hide Step, Inv;
    if ops != [] {
      StepKeeps(w, ops[0]);
      LedgerBalances(Step(w, ops[0]), ops[1..]);
    }
  }

  lemma StartBalances()
    ensures Inv(START)
  {
    assert LiveSlots(START.vars) == map[];
  }

  /** When every guard variable has gone out of scope, each admission was completed exactly once,
      whatever was moved where, and no slot is left in flight. */
  lemma EachAdmissionCompletesOnce(ops: seq<Op>)
    requires LegalProgram(START, ops) && Execute(START, ops).vars == map[]
    ensures var w := Execute(START, ops);
      && Once(w.reports) && Reported(w.reports) == w.admitted
      && w.ledger.inflight == 0
      && w.calls == w.ledger.rejected + w.ledger.bypassed + |w.reports|
  {
    hide Execute, LegalProgram, Step, Once, Reported, Inv;
    StartBalances();
    LedgerBalances(START, ops);
    NothingLive(Execute(START, ops));
  }

  lemma NothingLive(w: World)
    requires Inv(w) && w.vars == map[]
    ensures Once(w.reports) && Reported(w.reports) == w.admitted
    ensures w.ledger.inflight == 0
    ensures w.calls == w.ledger.rejected + w.ledger.bypassed + |w.reports|
  {
    hide Once, Reported;
    assert LiveSlots(w.vars) == map[];
    CountsAddUp(w.reports);
  }

  lemma {:induction false} CountsAddUp(reports: seq<Completion>)
    ensures CountOf(reports, Success) + CountOf(reports, Ignored) + CountOf(reports, Dropped) == |reports|
  {
    if reports != [] {
      CountsAddUp(reports[..|reports| - 1]);
    }
  }

  /** The most slots ever in flight: with a cap that never exceeds `cap`, at most `cap`. */
  lemma {:induction false} NeverOverCap(w: World, ops: seq<Op>, cap: nat)
    requires LegalProgram(w, ops) && Inv(w) && w.ledger.inflight <= cap
    requires forall op | op in ops && op.TryAcquire? :: op.cap <= cap
    ensures |LiveSlots(Execute(w, ops).vars)| <= cap
    decreases |ops|
  {
    hide Step, OnePlace, LiveSlots, CountOf;
    if ops != [] {
      StepKeeps(w, ops[0]);
      StepUnderCap(w, ops[0], cap);
      assert ops[0] in ops;
      NeverOverCap(Step(w, ops[0]), ops[1..], cap);
    }
  }

  lemma StepUnderCap(w: World, op: Op, cap: nat)
    requires Legal(w, op) && w.ledger.inflight <= cap && (op.TryAcquire? ==> op.cap <= cap)
    ensures Step(w, op).ledger.inflight <= cap
  {
  }

  // ---------- The machine behind the flags ----------

  /** Who holds which admission, the next number, what has been reported, and how many calls were
      refused or bypassed the limiter. */
  datatype Owners = Owners(live: map<Var, Ticket>, next: Ticket, reports: seq<Completion>, refused: nat, bypassed: nat)

  function OwnersOf(w: World): Owners {
    Owners(LiveSlots(w.vars), w.nextTicket, w.reports, w.ledger.rejected, w.ledger.bypassed)
  }

  /** The admission v holds, if any, is reported under the status. */
  function Ended(o: Owners, v: Var, status: Status): Owners {
    if v in o.live then o.(live := o.live - {v}, reports := o.reports + [Completion(o.live[v], status)]) else o
  }

  function HandedOn(o: Owners, src: Var, dst: Var): Owners {
    if src in o.live then o.(live := (o.live - {src})[dst := o.live[src]]) else o
  }

  /** An acquire takes a slot exactly while fewer than the cap are held; a completion reports the
      status it is given, and a guard that is destroyed or assigned over reports being ignored. */
  function OwnersStep(o: Owners, op: Op): Owners {
    match op
    case TryAcquire(dst, bypass, cap) =>
      var v := o.(next := o.next + 1);
      if bypass then v.(bypassed := o.bypassed + 1)
      else if |o.live| < cap then v.(live := o.live[dst := o.next])
      else v.(refused := o.refused + 1)
    case Move(src, dst) => HandedOn(o, src, dst)
    case MoveAssign(src, dst) => if src == dst then o else HandedOn(Ended(o, dst, Ignored), src, dst)
    case Complete(v, status) => Ended(o, v, status)
    case Destroy(v) => Ended(o, v, Ignored)
  }

  function OwnersRun(o: Owners, ops: seq<Op>): Owners
    decreases |ops|
  {
    if ops == [] then o else OwnersRun(OwnersStep(o, ops[0]), ops[1..])
  }

  lemma MoveOwns(vars: map<Var, Held>, src: Var, dst: Var)
    requires src in vars && src != dst
    ensures var live := LiveSlots(vars) - {dst};
      LiveSlots(vars[dst := vars[src]][src := Detached(vars[src])])
      == if src in live then (live - {src})[dst := live[src]] else live
  {
  }

  lemma AcquireOwns(w: World, op: Op)
    requires Inv(w) && Legal(w, op) && op.TryAcquire?
    ensures OwnersOf(Step(w, op)) == OwnersStep(OwnersOf(w), op)
  {
    hide OnePlace, CountOf;
    assert w.ledger.inflight == |LiveSlots(w.vars)|;
    assert LiveSlots(Step(w, op).vars) == OwnersStep(OwnersOf(w), op).live;
  }

  lemma ReportOwns(w: World, v: Var, status: Status, vars: map<Var, Held>)
    requires v in w.vars && LiveSlots(vars) == LiveSlots(w.vars) - {v}
    ensures OwnersOf(Report(w, v, status).(vars := vars)) == Ended(OwnersOf(w), v, status)
  {
    assert v in LiveSlots(w.vars) <==> Counting(w.vars[v]);
    assert v !in LiveSlots(w.vars) ==> LiveSlots(w.vars) - {v} == LiveSlots(w.vars);
  }

  /** The attached, completed and bypassed flags of the guards amount to owning admissions. */
  lemma StepOwns(w: World, op: Op)
    requires Inv(w) && Legal(w, op)
    ensures OwnersOf(Step(w, op)) == OwnersStep(OwnersOf(w), op)
  {
    hide OnePlace, Balanced, CountOf, LiveSlots, Report, Ended;
    match op
    case TryAcquire(_, _, _) => AcquireOwns(w, op);
    case Move(src, dst) =>
      MoveOwns(w.vars, src, dst);
      assert LiveSlots(w.vars) - {dst} == LiveSlots(w.vars) by { NotLive(w.vars, dst); }
    case MoveAssign(src, dst) =>
      if src != dst {
        var without := w.vars - {dst};
        SlotGone(w.vars, dst, without);
        ReportOwns(w, dst, Ignored, without);
        MoveOwns(without, src, dst);
        NotLive(without, dst);
        assert LiveSlots(without) - {dst} == LiveSlots(without);
        assert without[dst := w.vars[src]] == w.vars[dst := w.vars[src]];
      }
    case Complete(x, status) =>
      SlotGone(w.vars, x, Step(w, op).vars);
      ReportOwns(w, x, status, Step(w, op).vars);
    case Destroy(x) =>
      SlotGone(w.vars, x, Step(w, op).vars);
      ReportOwns(w, x, Ignored, Step(w, op).vars);
  }

  lemma NotLive(vars: map<Var, Held>, v: Var)
    requires v !in vars
    ensures v !in LiveSlots(vars)
  {
  }

  /** After every legal program exactly those admissions are held, by those variables, and those
      completions were reported, in that order and under those statuses, that owning admissions one
      at a time gives. */
  lemma {:induction false} ProgramOwns(w: World, ops: seq<Op>)
    requires Inv(w) && LegalProgram(w, ops)
    ensures OwnersOf(Execute(w, ops)) == OwnersRun(OwnersOf(w), ops)
    decreases |ops|
  {
    hide Step, Inv, OwnersOf, OwnersStep;
    if ops != [] {
      StepKeeps(w, ops[0]);
      StepOwns(w, ops[0]);
      ProgramOwns(Step(w, ops[0]), ops[1..]);
    }
  }
}
