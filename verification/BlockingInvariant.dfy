/** Every step of the blocking limiters keeps the inductive invariant. */
module BlockingInvariant {
  import opened Counting
  import opened Guards
  import opened BlockingInterleaving

  // ---------- What a step leaves alone ----------

  /** The step moves its thread; each other part of the state changes only in the steps named. */
  ghost predicate OnlyMoves(s: State, s': State, a: Action)
    requires !a.StoreCap?
  {
    && a.t in s'.pc && s'.pc == s.pc[a.t := s'.pc[a.t]] && s'.cap == s.cap
    && (!a.SwapInflight? && !a.Register? && !a.Mirror? ==> s'.inflight == s.inflight)
    && (!a.SwapInflight? && !a.Register? && !a.Check? && !a.Extract? && !a.Mirror? ==> s'.cells == s.cells)
    && (!a.SwapInflight? && !a.Park? && !a.Check? ==> s'.queue == s.queue)
    && (!a.SwapInflight? ==> s'.served == s.served)
    && (!a.SwapInflight? && !a.Park? ==> s'.ready == s.ready)
    && (!a.Park? ==> s'.tickets == s.tickets && s'.nextTicket == s.nextTicket)
    && (!a.TakeId? ==> s'.nextId == s.nextId)
    && (!a.Register? && !a.Complete? ==> s'.outer == s.outer)
    && (!a.Complete? ==> s'.asked == s.asked)
    && (!a.Register? && !a.Mirror? ==> s'.mirrored == s.mirrored)
  }

  predicate AtDelegate(a: Action) { a.LoadInflight? || a.LoadCap? || a.SwapInflight? }

  lemma FrameAtDelegate(d: Discipline, maxCap: nat, s: State, a: Action)
    requires Enabled(d, maxCap, s, a) && AtDelegate(a)
    ensures OnlyMoves(s, Apply(d, maxCap, s, a), a)
  {
  }

  lemma FrameElsewhere(d: Discipline, maxCap: nat, s: State, a: Action)
    requires Enabled(d, maxCap, s, a) && !a.StoreCap? && !AtDelegate(a)
    ensures OnlyMoves(s, Apply(d, maxCap, s, a), a)
  {
    hide Erased, Admit, Refuse, Within, BlockingInterleaving.Moved, Plus, HasLocal, Waiting;
  }

  lemma Frame(d: Discipline, maxCap: nat, s: State, a: Action)
    requires Enabled(d, maxCap, s, a) && !a.StoreCap?
    ensures OnlyMoves(s, Apply(d, maxCap, s, a), a)
  {
    hide Apply, Enabled, OnlyMoves;
    if AtDelegate(a) {
      FrameAtDelegate(d, maxCap, s, a);
    } else {
      FrameElsewhere(d, maxCap, s, a);
    }
  }

  /** Which steps lead into, and which out of, the places where a thread has a number or a status. */
  ghost predicate Turns(s: State, s': State, a: Action)
    requires !a.StoreCap? && a.t in s.pc && a.t in s'.pc
  {
    var x, x' := s.pc[a.t], s'.pc[a.t];
    && (x'.Completing? ==> a.Complete?) && (x'.Extracted? ==> a.Extract?)
    && (x'.Numbered? ==> a.TakeId?) && (x'.Parked? ==> a.Park?)
    && (x.Completing? ==> a.Extract?) && (x.Extracted? ==> a.Mirror?)
  }

  lemma TurnsInside(d: Discipline, maxCap: nat, s: State, a: Action)
    requires Enabled(d, maxCap, s, a) && (a.LoadInflight? || a.LoadCap?)
    ensures a.t in Apply(d, maxCap, s, a).pc && Turns(s, Apply(d, maxCap, s, a), a)
  {
  }

  lemma TurnsAfterSwap(d: Discipline, maxCap: nat, s: State, a: Action)
    requires Enabled(d, maxCap, s, a) && a.SwapInflight?
    ensures a.t in Apply(d, maxCap, s, a).pc && Turns(s, Apply(d, maxCap, s, a), a)
  {
  }

  lemma TurnsAtDelegate(d: Discipline, maxCap: nat, s: State, a: Action)
    requires Enabled(d, maxCap, s, a) && AtDelegate(a)
    ensures a.t in Apply(d, maxCap, s, a).pc && Turns(s, Apply(d, maxCap, s, a), a)
  {
    hide Apply, Enabled, Turns;
    if a.SwapInflight? { TurnsAfterSwap(d, maxCap, s, a); } else { TurnsInside(d, maxCap, s, a); }
  }

  lemma TurnsElsewhere(d: Discipline, maxCap: nat, s: State, a: Action)
    requires Enabled(d, maxCap, s, a) && !a.StoreCap? && !AtDelegate(a)
    ensures a.t in Apply(d, maxCap, s, a).pc && Turns(s, Apply(d, maxCap, s, a), a)
  {
    hide Erased, Admit, Refuse, Within, BlockingInterleaving.Moved, Plus;
  }

  lemma NextPc(d: Discipline, maxCap: nat, s: State, a: Action)
    requires Enabled(d, maxCap, s, a) && !a.StoreCap?
    ensures a.t in Apply(d, maxCap, s, a).pc && Turns(s, Apply(d, maxCap, s, a), a)
  {
    hide Apply, Enabled, Turns;
    if AtDelegate(a) {
      TurnsAtDelegate(d, maxCap, s, a);
    } else {
      TurnsElsewhere(d, maxCap, s, a);
    }
  }

  // ---------- The queue ----------

  lemma WithoutRemoves<T>(q: seq<T>, k: nat)
    requires Distinct(q) && k < |q|
    ensures forall u :: u in Without(q, k) <==> u in q && u != q[k]
    ensures Distinct(Without(q, k))
  {
    var r := Without(q, k);
    assert forall i | 0 <= i < |r| :: r[i] == q[if i < k then i else i + 1];
    assert q == q[..k] + [q[k]] + q[k + 1..];
  }

  /** Erasing keeps the order of what remains. */
  lemma WithoutOrder(d: Discipline, s: State, q: seq<Tid>, k: nat)
    requires k < |q|
    requires forall i, j | 0 <= i < j < |q| :: InOrder(d, TicketOf(s, q[i]), TicketOf(s, q[j]))
    ensures var r := Without(q, k);
      && (forall u | u in r :: u in q)
      && forall i, j | 0 <= i < j < |r| :: InOrder(d, TicketOf(s, r[i]), TicketOf(s, r[j]))
  {
    var r := Without(q, k);
    assert forall i | 0 <= i < |r| :: r[i] == q[if i < k then i else i + 1];
  }

  lemma ErasedOrder(d: Discipline, s: State, q: seq<Tid>, t: Tid)
    requires forall i, j | 0 <= i < j < |q| :: InOrder(d, TicketOf(s, q[i]), TicketOf(s, q[j]))
    ensures var r := Erased(d, q, t);
      && (forall u | u in r :: u in q)
      && forall i, j | 0 <= i < j < |r| :: InOrder(d, TicketOf(s, r[i]), TicketOf(s, r[j]))
  {
    hide InOrder, TicketOf, Without;
    var k := if d.Fifo? then FirstAt(q, t, 0) else LastAt(q, t, |q|) - 1;
    if 0 <= k < |q| { WithoutOrder(d, s, q, k); }
  }

  lemma ErasedRemoves<T>(d: Discipline, q: seq<T>, t: T)
    requires Distinct(q)
    ensures forall u :: u in Erased(d, q, t) <==> u in q && u != t
    ensures Distinct(Erased(d, q, t))
    ensures |Erased(d, q, t)| <= |q|
  {
    hide Distinct;
    var k := if d.Fifo? then FirstAt(q, t, 0) else LastAt(q, t, |q|) - 1;
    if 0 <= k < |q| { WithoutRemoves(q, k); }
  }

  // ---------- Guard cells ----------

  lemma MoveToken(cells: map<Place, Token>, inflight: int, next: Token, from: Place, to: Place)
    requires TokensInv(cells, inflight, next) && from in cells && to !in cells
    ensures TokensInv(BlockingInterleaving.Moved(cells, from, to), inflight, next)
  {
    var cells' := BlockingInterleaving.Moved(cells, from, to);
    assert cells'.Keys == cells.Keys - {from} + {to};
    assert |cells'.Keys| == |cells.Keys|;
  }

  lemma NewToken(cells: map<Place, Token>, inflight: int, next: Token, to: Place)
    requires TokensInv(cells, inflight, next) && to !in cells
    ensures TokensInv(cells[to := next], inflight + 1, next + 1)
  {
    assert cells[to := next].Keys == cells.Keys + {to};
    assert |cells[to := next].Keys| == |cells.Keys| + 1;
  }

  lemma DropToken(cells: map<Place, Token>, inflight: int, next: Token, from: Place)
    requires TokensInv(cells, inflight, next) && from in cells
    ensures TokensInv(cells - {from}, inflight - 1, next)
  {
    assert (cells - {from}).Keys == cells.Keys - {from};
    assert |(cells - {from}).Keys| == |cells.Keys| - 1;
  }

  lemma TokensAfterSwap(d: Discipline, maxCap: nat, s: State, a: Action)
    requires CellsInv(s) && TokensInv(s.cells, s.inflight, s.nextToken)
    requires a.SwapInflight? && Enabled(d, maxCap, s, a)
    ensures var s' := Apply(d, maxCap, s, a); TokensInv(s'.cells, s'.inflight, s'.nextToken)
  {
    hide TokensInv;
    var t := a.t;
    assert Home(s, t);
    if s.pc[t].Fast? {
      NewToken(s.cells, s.inflight, s.nextToken, Local(t));
    } else {
      assert Home(s, s.queue[0]);
      NewToken(s.cells, s.inflight, s.nextToken, Slot(s.queue[0]));
    }
  }

  lemma TokensAfterMove(d: Discipline, maxCap: nat, s: State, a: Action)
    requires IdsInv(s) && TokensInv(s.cells, s.inflight, s.nextToken)
    requires a.Register? || a.Check? || a.Extract? || a.Mirror?
    requires Home(s, a.t) && Enabled(d, maxCap, s, a)
    ensures var s' := Apply(d, maxCap, s, a); TokensInv(s'.cells, s'.inflight, s'.nextToken)
  {
    hide TokensInv, Erased;
    match a
    case Register(t) => MoveToken(s.cells, s.inflight, s.nextToken, Local(t), Active(s.pc[t].id));
    case Check(t) => if Slot(t) in s.cells { MoveToken(s.cells, s.inflight, s.nextToken, Slot(t), Local(t)); }
    case Extract(t) => MoveToken(s.cells, s.inflight, s.nextToken, Active(s.pc[t].id), Local(t));
    case Mirror(t) => DropToken(s.cells, s.inflight, s.nextToken, Local(t));
  }

  lemma TokensStay(d: Discipline, maxCap: nat, s: State, a: Action)
    requires Enabled(d, maxCap, s, a)
    requires !a.SwapInflight? && !a.Register? && !a.Check? && !a.Extract? && !a.Mirror?
    ensures var s' := Apply(d, maxCap, s, a);
      s'.cells == s.cells && s'.inflight == s.inflight && s'.nextToken == s.nextToken
  {
  }

  lemma TokensStep(d: Discipline, maxCap: nat, s: State, a: Action)
    requires CellsInv(s) && IdsInv(s) && TokensInv(s.cells, s.inflight, s.nextToken)
    requires Enabled(d, maxCap, s, a)
    ensures var s' := Apply(d, maxCap, s, a); TokensInv(s'.cells, s'.inflight, s'.nextToken)
  {
    hide TokensInv, CellsInv, IdsInv, Home, Apply, Fits;
    if a.SwapInflight? {
      TokensAfterSwap(d, maxCap, s, a);
    } else if a.Register? || a.Check? || a.Extract? || a.Mirror? {
      AtHome(s, a.t);
      TokensAfterMove(d, maxCap, s, a);
    } else {
      TokensStay(d, maxCap, s, a);
    }
  }

  /** A step of thread t that touches neither the queue nor any cell but t's own local. */
  lemma HomeElsewhere(s: State, s': State, t: Tid, u: Tid)
    requires Home(s, u) && t in s.pc && t in s'.pc && s'.pc == s.pc[t := s'.pc[t]]
    requires s'.queue == s.queue
    requires forall v: Tid :: Slot(v) in s'.cells <==> Slot(v) in s.cells
    requires forall v: Tid | v != t :: Local(v) in s'.cells <==> Local(v) in s.cells
    requires Local(t) in s'.cells <==> HasLocal(s'.pc[t])
    requires Waiting(s'.pc[t]) == Waiting(s.pc[t])
    ensures Home(s', u)
  {
  }

  lemma HomeAfterAdmit(s: State, t: Tid, u: Tid)
    requires CellsInv(s) && Distinct(s.queue)
    requires t in s.pc && InDelegate(s.pc[t]) && (s.pc[t].Handing? ==> s.queue != [])
    ensures Home(Admit(s, t), u)
  {
    hide CellsInv;
    AtHome(s, t);
    AtHome(s, u);
    if s.pc[t].Handing? {
      var w := s.queue[0];
      AtHome(s, w);
      assert s.queue == [w] + s.queue[1..];
      assert w !in s.queue[1..];
    }
  }

  lemma HomeAfterCheck(d: Discipline, maxCap: nat, s: State, t: Tid, u: Tid)
    requires CellsInv(s) && Distinct(s.queue) && Enabled(d, maxCap, s, Check(t))
    ensures Home(Apply(d, maxCap, s, Check(t)), u)
  {
    hide CellsInv, Erased;
    AtHome(s, t);
    AtHome(s, u);
    ErasedRemoves(d, s.queue, t);
  }

  lemma HomeAfterPark(d: Discipline, maxCap: nat, s: State, t: Tid, u: Tid)
    requires CellsInv(s) && Enabled(d, maxCap, s, Park(t))
    ensures Home(Apply(d, maxCap, s, Park(t)), u)
  {
    hide CellsInv;
    AtHome(s, t);
    AtHome(s, u);
  }

  lemma HomeAfterMove(d: Discipline, maxCap: nat, s: State, a: Action, u: Tid)
    requires a.Register? || a.Extract? || a.Mirror?
    requires Home(s, a.t) && Home(s, u) && IdsInv(s) && Enabled(d, maxCap, s, a)
    ensures Home(Apply(d, maxCap, s, a), u)
  {
    HomeElsewhere(s, Apply(d, maxCap, s, a), a.t, u);
  }

  lemma HomeAfterSwap(d: Discipline, maxCap: nat, s: State, a: Action, u: Tid)
    requires CellsInv(s) && Distinct(s.queue) && Enabled(d, maxCap, s, a) && a.SwapInflight?
    ensures Home(Apply(d, maxCap, s, a), u)
  {
    hide CellsInv, Distinct, Home;
    AtHome(s, u);
    AtHome(s, a.t);
    if s.inflight == s.pc[a.t].cas.cur && !a.spurious {
      HomeAfterAdmit(s, a.t, u);
    } else {
      assert HasLocal(s.pc[a.t]) <==> Local(a.t) in s.cells by { HomeLocal(s, a.t); }
      HomeElsewhere(s, Apply(d, maxCap, s, a), a.t, u);
    }
  }

  lemma HomeLocal(s: State, t: Tid)
    requires Home(s, t) && t in s.pc
    ensures Local(t) in s.cells <==> HasLocal(s.pc[t])
  {
  }

  /** The steps that keep cells and queue keep what the thread is known to own. */
  lemma SameHoldings(d: Discipline, maxCap: nat, s: State, a: Action)
    requires Enabled(d, maxCap, s, a) && !a.StoreCap? && !a.SwapInflight? && !a.Check? && !a.Park?
    requires !a.Register? && !a.Extract? && !a.Mirror?
    ensures HasLocal(Apply(d, maxCap, s, a).pc[a.t]) == HasLocal(s.pc[a.t])
    ensures Waiting(Apply(d, maxCap, s, a).pc[a.t]) == Waiting(s.pc[a.t])
  {
  }

  lemma HomeSame(s: State, c: int, u: Tid)
    requires Home(s, u)
    ensures Home(s.(cap := c), u)
  {
  }

  lemma HomeStep(d: Discipline, maxCap: nat, s: State, a: Action, u: Tid)
    requires CellsInv(s) && IdsInv(s) && Distinct(s.queue) && Enabled(d, maxCap, s, a)
    ensures Home(Apply(d, maxCap, s, a), u)
  {
    hide CellsInv, IdsInv, Distinct, Home, Apply, Fits;
    AtHome(s, u);
    if a.StoreCap? {
      HomeSame(s, a.c, u);
      ApplyStoreCap(d, maxCap, s, a.c);
    } else if a.Check? {
      HomeAfterCheck(d, maxCap, s, a.t, u);
    } else if a.Park? {
      HomeAfterPark(d, maxCap, s, a.t, u);
    } else if a.SwapInflight? {
      HomeAfterSwap(d, maxCap, s, a, u);
    } else {
      AtHome(s, a.t);
      if a.Register? || a.Extract? || a.Mirror? {
        HomeAfterMove(d, maxCap, s, a, u);
      } else {
        Frame(d, maxCap, s, a);
        HomeLocal(s, a.t);
        SameHoldings(d, maxCap, s, a);
        HomeElsewhere(s, Apply(d, maxCap, s, a), a.t, u);
      }
    }
  }

  lemma AtHome(s: State, t: Tid)
    requires CellsInv(s)
    ensures Home(s, t)
  {
  }

  lemma CellsStep(d: Discipline, maxCap: nat, s: State, a: Action)
    requires CellsInv(s) && IdsInv(s) && Distinct(s.queue) && Enabled(d, maxCap, s, a)
    ensures CellsInv(Apply(d, maxCap, s, a))
  {
    hide Home, Apply, Enabled;
    forall u: Tid
      ensures Home(Apply(d, maxCap, s, a), u)
    {
      HomeStep(d, maxCap, s, a, u);
    }
  }

  /** A step of thread t that neither registers, extracts, numbers nor completes. */
  lemma IdsElsewhere(s: State, s': State, t: Tid)
    requires IdsInv(s) && t in s.pc && t in s'.pc && s'.pc == s.pc[t := s'.pc[t]]
    requires s'.outer == s.outer && s'.nextId == s.nextId
    requires forall id: SlotId :: Active(id) in s'.cells <==> Active(id) in s.cells
    requires !s'.pc[t].Completing? && !s'.pc[t].Numbered?
    ensures IdsInv(s')
  {
  }

  lemma IdsRegister(d: Discipline, maxCap: nat, s: State, t: Tid)
    requires Home(s, t) && IdsInv(s) && Enabled(d, maxCap, s, Register(t))
    ensures IdsInv(Apply(d, maxCap, s, Register(t)))
  {
  }

  lemma IdsTakeId(d: Discipline, maxCap: nat, s: State, t: Tid)
    requires IdsInv(s) && Enabled(d, maxCap, s, TakeId(t))
    ensures IdsInv(Apply(d, maxCap, s, TakeId(t)))
  {
  }

  lemma IdsComplete(d: Discipline, maxCap: nat, s: State, a: Action)
    requires IdsInv(s) && a.Complete? && Enabled(d, maxCap, s, a)
    ensures IdsInv(Apply(d, maxCap, s, a))
  {
  }

  lemma IdsExtract(d: Discipline, maxCap: nat, s: State, t: Tid)
    requires IdsInv(s) && Enabled(d, maxCap, s, Extract(t))
    ensures IdsInv(Apply(d, maxCap, s, Extract(t)))
  {
  }

  lemma ActiveCellsStay(d: Discipline, maxCap: nat, s: State, a: Action)
    requires Enabled(d, maxCap, s, a) && !TouchesIds(a)
    ensures forall id: SlotId :: Active(id) in Apply(d, maxCap, s, a).cells <==> Active(id) in s.cells
  {
    hide Erased;
  }

  predicate TouchesIds(a: Action) { a.TakeId? || a.Register? || a.Complete? || a.Extract? || a.StoreCap? }

  lemma IdsRest(d: Discipline, maxCap: nat, s: State, a: Action)
    requires IdsInv(s) && Enabled(d, maxCap, s, a) && !TouchesIds(a)
    ensures IdsInv(Apply(d, maxCap, s, a))
  {
    hide Apply, IdsInv, Fits;
    Frame(d, maxCap, s, a);
    NextPc(d, maxCap, s, a);
    ActiveCellsStay(d, maxCap, s, a);
    IdsElsewhere(s, Apply(d, maxCap, s, a), a.t);
  }

  lemma IdsStep(d: Discipline, maxCap: nat, s: State, a: Action)
    requires CellsInv(s) && IdsInv(s) && Enabled(d, maxCap, s, a)
    ensures IdsInv(Apply(d, maxCap, s, a))
  {
    hide CellsInv, IdsInv, Home;
    if !TouchesIds(a) {
      IdsRest(d, maxCap, s, a);
    } else {
      match a
      case TakeId(t) => IdsTakeId(d, maxCap, s, t);
      case Register(t) => AtHome(s, t); IdsRegister(d, maxCap, s, t);
      case Complete(_, _, _) => IdsComplete(d, maxCap, s, a);
      case Extract(t) => IdsExtract(d, maxCap, s, t);
      case StoreCap(c) => IdsSame(s, c);
    }
  }

  lemma IdsSame(s: State, c: int)
    requires IdsInv(s)
    ensures IdsInv(s.(cap := c))
  {
  }

  lemma OwnedIds(d: Discipline, maxCap: nat, s: State, a: Action, id: SlotId)
    requires IdsInv(s) && OwnedInv(s) && (!a.StoreCap? ==> Home(s, a.t)) && Enabled(d, maxCap, s, a)
    requires TouchesIds(a)
    requires var s' := Apply(d, maxCap, s, a); Active(id) in s'.cells && id !in s'.outer
    ensures exists t :: Completes(Apply(d, maxCap, s, a), t, id)
  {
    hide OwnedInv;
    var s' := Apply(d, maxCap, s, a);
    if a.Complete? && a.id == id {
      assert Completes(s', a.t, id);
    } else {
      assert Active(id) in s.cells && id !in s.outer;
      var u := Owner(s, id);
      assert Completes(s', u, id);
    }
  }

  lemma Owner(s: State, id: SlotId) returns (t: Tid)
    requires OwnedInv(s) && Active(id) in s.cells && id !in s.outer
    ensures Completes(s, t, id)
  {
    t :| Completes(s, t, id);
  }

  lemma OwnedRest(d: Discipline, maxCap: nat, s: State, a: Action, id: SlotId)
    requires OwnedInv(s) && Enabled(d, maxCap, s, a) && !TouchesIds(a)
    requires var s' := Apply(d, maxCap, s, a); Active(id) in s'.cells && id !in s'.outer
    ensures exists t :: Completes(Apply(d, maxCap, s, a), t, id)
  {
    hide OwnedInv, Apply, Fits;
    Frame(d, maxCap, s, a);
    NextPc(d, maxCap, s, a);
    ActiveCellsStay(d, maxCap, s, a);
    var u := Owner(s, id);
    assert Completes(Apply(d, maxCap, s, a), u, id);
  }

  lemma OwnedStep(d: Discipline, maxCap: nat, s: State, a: Action)
    requires CellsInv(s) && IdsInv(s) && OwnedInv(s) && Enabled(d, maxCap, s, a)
    ensures OwnedInv(Apply(d, maxCap, s, a))
  {
    hide Apply, Enabled, IdsInv, CellsInv, Home;
    var s' := Apply(d, maxCap, s, a);
    forall id: SlotId | Active(id) in s'.cells && id !in s'.outer
      ensures exists t :: Completes(s', t, id)
    {
      if TouchesIds(a) {
        if !a.StoreCap? { AtHome(s, a.t); }
        OwnedIds(d, maxCap, s, a, id);
      } else {
        OwnedRest(d, maxCap, s, a, id);
      }
    }
  }

  /** A step of thread t that touches neither the queue nor the mutex. */
  lemma LockElsewhere(s: State, s': State, t: Tid)
    requires LockInv(s) && t in s.pc && t in s'.pc && s'.pc == s.pc[t := s'.pc[t]]
    requires s'.queue == s.queue && s'.lock == s.lock && s.pc[t].Handing? == s'.pc[t].Handing?
    ensures LockInv(s')
  {
  }

  lemma LockAfterAdmit(s: State, t: Tid)
    requires LockInv(s) && t in s.pc && s.pc[t].Handing? && s.queue != []
    ensures LockInv(Admit(s, t))
  {
  }

  lemma LockAfterRefuse(s: State, t: Tid)
    requires LockInv(s) && t in s.pc && InDelegate(s.pc[t])
    ensures LockInv(Refuse(s, t))
  {
  }

  lemma LockAfterPark(d: Discipline, maxCap: nat, s: State, t: Tid)
    requires Home(s, t) && LockInv(s) && Enabled(d, maxCap, s, Park(t))
    ensures LockInv(Apply(d, maxCap, s, Park(t)))
  {
    assert forall i | 0 <= i < |s.queue| :: s.queue[i] in s.queue;
  }

  lemma LockAfterCheck(d: Discipline, maxCap: nat, s: State, t: Tid)
    requires LockInv(s) && Enabled(d, maxCap, s, Check(t))
    ensures LockInv(Apply(d, maxCap, s, Check(t)))
  {
    hide Erased;
    ErasedRemoves(d, s.queue, t);
  }

  lemma LockAfterUnblock(d: Discipline, maxCap: nat, s: State, t: Tid)
    requires LockInv(s) && Enabled(d, maxCap, s, Unblock(t))
    ensures LockInv(Apply(d, maxCap, s, Unblock(t)))
  {
  }

  predicate TouchesQueue(s: State, a: Action) {
    a.Park? || a.Check? || a.Unblock? || a.StoreCap? || a.LoadCap? || a.SwapInflight?
  }

  lemma LockRest(d: Discipline, maxCap: nat, s: State, a: Action)
    requires LockInv(s) && Enabled(d, maxCap, s, a) && !TouchesQueue(s, a)
    ensures LockInv(Apply(d, maxCap, s, a))
  {
    hide LockInv, Erased;
    LockElsewhere(s, Apply(d, maxCap, s, a), a.t);
  }

  lemma LockInDelegate(d: Discipline, maxCap: nat, s: State, a: Action)
    requires LockInv(s) && Enabled(d, maxCap, s, a) && (a.LoadCap? || a.SwapInflight?)
    ensures LockInv(Apply(d, maxCap, s, a))
  {
    hide LockInv;
    var t, s' := a.t, Apply(d, maxCap, s, a);
    if a.LoadCap? && s.pc[t].cas.cur >= s.cap {
      LockAfterRefuse(s, t);
    } else if a.SwapInflight? && s.inflight == s.pc[t].cas.cur && !a.spurious && s.pc[t].Handing? {
      LockAfterAdmit(s, t);
    } else {
      LockElsewhere(s, s', t);
    }
  }

  lemma LockSame(s: State, c: int)
    requires LockInv(s)
    ensures LockInv(s.(cap := c))
  {
  }

  lemma LockStep(d: Discipline, maxCap: nat, s: State, a: Action)
    requires CellsInv(s) && LockInv(s) && Enabled(d, maxCap, s, a)
    ensures LockInv(Apply(d, maxCap, s, a))
  {
    hide CellsInv, LockInv, Home;
    if !TouchesQueue(s, a) {
      LockRest(d, maxCap, s, a);
    } else {
      match a
      case Park(t) => AtHome(s, t); LockAfterPark(d, maxCap, s, t);
      case Check(t) => LockAfterCheck(d, maxCap, s, t);
      case Unblock(t) => LockAfterUnblock(d, maxCap, s, t);
      case StoreCap(c) => LockSame(s, c);
      case _ => LockInDelegate(d, maxCap, s, a);
    }
  }

  // ---------- Notification, cap, order, mirroring ----------

  lemma ReadyElsewhere(s: State, s': State, t: Tid)
    requires ReadyInv(s) && t in s.pc && t in s'.pc && s'.pc == s.pc[t := s'.pc[t]]
    requires s'.ready == s.ready && !s'.pc[t].Parked?
    requires forall u: Tid | u != t :: Slot(u) in s'.cells <==> Slot(u) in s.cells
    ensures ReadyInv(s')
  {
  }

  lemma ReadyAfterAdmit(s: State, t: Tid)
    requires ReadyInv(s) && t in s.pc && s.pc[t].Handing? && s.queue != []
    ensures ReadyInv(Admit(s, t))
  {
  }

  lemma ReadyAfterPark(d: Discipline, maxCap: nat, s: State, t: Tid)
    requires Home(s, t) && ReadyInv(s) && Enabled(d, maxCap, s, Park(t))
    ensures ReadyInv(Apply(d, maxCap, s, Park(t)))
  {
  }

  lemma ReadySame(s: State, c: int)
    requires ReadyInv(s)
    ensures ReadyInv(s.(cap := c))
  {
  }

  predicate HandsASlot(s: State, a: Action) {
    && a.SwapInflight? && a.t in s.pc && s.pc[a.t].Handing? && s.pc[a.t].cas.Swap?
    && s.inflight == s.pc[a.t].cas.cur && !a.spurious
  }

  /** Notifications and waiters' slots change only in a hand-off, in parking, and for oneself. */
  lemma ReadySlots(d: Discipline, maxCap: nat, s: State, a: Action)
    requires Enabled(d, maxCap, s, a) && !a.Park? && !a.StoreCap? && !HandsASlot(s, a)
    ensures Apply(d, maxCap, s, a).ready == s.ready
    ensures forall u: Tid | u != a.t :: Slot(u) in Apply(d, maxCap, s, a).cells <==> Slot(u) in s.cells
  {
    hide Erased;
  }

  lemma ReadyRest(d: Discipline, maxCap: nat, s: State, a: Action)
    requires ReadyInv(s) && Enabled(d, maxCap, s, a)
    requires !a.Park? && !a.StoreCap? && !HandsASlot(s, a)
    ensures ReadyInv(Apply(d, maxCap, s, a))
  {
    hide ReadyInv, Apply, Fits, HandsASlot;
    Frame(d, maxCap, s, a);
    NextPc(d, maxCap, s, a);
    ReadySlots(d, maxCap, s, a);
    ReadyElsewhere(s, Apply(d, maxCap, s, a), a.t);
  }

  lemma ReadyStep(d: Discipline, maxCap: nat, s: State, a: Action)
    requires CellsInv(s) && ReadyInv(s) && Enabled(d, maxCap, s, a)
    ensures ReadyInv(Apply(d, maxCap, s, a))
  {
    hide ReadyInv, Erased, CellsInv, Home;
    if a.StoreCap? {
      ReadySame(s, a.c);
    } else if a.Park? {
      AtHome(s, a.t);
      ReadyAfterPark(d, maxCap, s, a.t);
    } else if HandsASlot(s, a) {
      ReadyAfterAdmit(s, a.t);
    } else {
      ReadyRest(d, maxCap, s, a);
    }
  }

  lemma CapInDelegate(d: Discipline, maxCap: nat, s: State, a: Action)
    requires CapInv(maxCap, s) && Enabled(d, maxCap, s, a)
    requires a.LoadInflight? || a.LoadCap? || a.SwapInflight?
    ensures CapInv(maxCap, Apply(d, maxCap, s, a))
  {
  }

  lemma CapRest(d: Discipline, maxCap: nat, s: State, a: Action)
    requires CapInv(maxCap, s) && Enabled(d, maxCap, s, a)
    requires !a.LoadInflight? && !a.LoadCap? && !a.SwapInflight?
    ensures CapInv(maxCap, Apply(d, maxCap, s, a))
  {
    hide Erased;
    var s' := Apply(d, maxCap, s, a);
    if !a.StoreCap? {
      assert !InDelegate(s'.pc[a.t]) || s'.pc[a.t].cas == Load;
      assert s'.inflight <= s.inflight;
    }
  }

  lemma CapStep(d: Discipline, maxCap: nat, s: State, a: Action)
    requires CapInv(maxCap, s) && Enabled(d, maxCap, s, a)
    ensures CapInv(maxCap, Apply(d, maxCap, s, a))
  {
    hide CapInv, Apply, Enabled;
    if a.LoadInflight? || a.LoadCap? || a.SwapInflight? {
      CapInDelegate(d, maxCap, s, a);
    } else {
      CapRest(d, maxCap, s, a);
    }
  }

  lemma OrderedErase(d: Discipline, s: State, t: Tid)
    requires OrderInv(d, s) && Distinct(s.queue)
    ensures OrderInv(d, s.(queue := Erased(d, s.queue, t)))
  {
    ErasedRemoves(d, s.queue, t);
    ErasedOrder(d, s, s.queue, t);
    OrderSameTickets(d, s, s.(queue := Erased(d, s.queue, t)));
  }

  lemma OrderSameTickets(d: Discipline, s: State, s': State)
    requires s'.tickets == s.tickets
    ensures forall t :: TicketOf(s', t) == TicketOf(s, t)
  {
  }

  lemma OrderedPark(d: Discipline, maxCap: nat, s: State, t: Tid)
    requires OrderInv(d, s) && Home(s, t) && Enabled(d, maxCap, s, Park(t))
    ensures OrderInv(d, Apply(d, maxCap, s, Park(t)))
  {
    var s' := Apply(d, maxCap, s, Park(t));
    assert t !in s.queue;
    if s'.pc[t].Parked? {
      assert forall u | u in s.queue :: TicketOf(s', u) == TicketOf(s, u) < s.nextTicket;
      assert forall i | 0 <= i < |s.queue| :: s.queue[i] in s.queue;
      forall i, j | 0 <= i < j < |s'.queue|
        ensures InOrder(d, TicketOf(s', s'.queue[i]), TicketOf(s', s'.queue[j]))
      {
        if d.Fifo? {
          assert s'.queue[i] == s.queue[i];
        } else {
          assert s'.queue[j] == s.queue[j - 1];
        }
      }
    }
  }

  /** Serving the head, or leaving the queue alone, keeps the order. */
  lemma OrderedTail(d: Discipline, s: State, s': State)
    requires OrderInv(d, s)
    requires s'.tickets == s.tickets && s'.nextTicket == s.nextTicket
    requires s'.queue == s.queue || (s.queue != [] && s'.queue == s.queue[1..])
    ensures OrderInv(d, s')
  {
    OrderSameTickets(d, s, s');
  }

  lemma OrderAfterCheck(d: Discipline, maxCap: nat, s: State, t: Tid)
    requires LockInv(s) && OrderInv(d, s) && Enabled(d, maxCap, s, Check(t))
    ensures OrderInv(d, Apply(d, maxCap, s, Check(t)))
  {
    hide Erased, OrderInv, LockInv, Distinct;
    var s' := Apply(d, maxCap, s, Check(t));
    assert Distinct(s.queue) by { AlwaysDistinct(s); }
    OrderedErase(d, s, t);
    OrderedTail(d, if Slot(t) in s.cells then s else s.(queue := s'.queue), s');
  }

  lemma AlwaysDistinct(s: State)
    requires LockInv(s)
    ensures Distinct(s.queue)
  {
  }

  lemma OrderAfterSwap(d: Discipline, maxCap: nat, s: State, a: Action)
    requires OrderInv(d, s) && a.SwapInflight? && Enabled(d, maxCap, s, a)
    ensures OrderInv(d, Apply(d, maxCap, s, a))
  {
    hide OrderInv;
    OrderedTail(d, s, Apply(d, maxCap, s, a));
  }

  lemma OrderStep(d: Discipline, maxCap: nat, s: State, a: Action)
    requires CellsInv(s) && LockInv(s) && OrderInv(d, s) && Enabled(d, maxCap, s, a)
    ensures OrderInv(d, Apply(d, maxCap, s, a))
  {
    hide CellsInv, LockInv, OrderInv, Home, Apply, Fits;
    match a
    case StoreCap(c) => OrderedTail(d, s, s.(cap := c)); ApplyStoreCap(d, maxCap, s, c);
    case Check(t) => OrderAfterCheck(d, maxCap, s, t);
    case Park(t) => AtHome(s, t); OrderedPark(d, maxCap, s, t);
    case SwapInflight(_, _) => OrderAfterSwap(d, maxCap, s, a);
    case _ => Frame(d, maxCap, s, a); OrderedTail(d, s, Apply(d, maxCap, s, a));
  }

  lemma ApplyStoreCap(d: Discipline, maxCap: nat, s: State, c: int)
    requires Enabled(d, maxCap, s, StoreCap(c))
    ensures Apply(d, maxCap, s, StoreCap(c)) == s.(cap := c)
  {
  }

  /** Nothing served and nobody new in the queue. */
  lemma ServedSame(d: Discipline, s: State, s': State)
    requires ServedInv(d, s) && s'.served == s.served && s.nextTicket <= s'.nextTicket
    requires forall t | t in s'.queue ::
      if t in s.queue then TicketOf(s', t) == TicketOf(s, t) else s.nextTicket <= TicketOf(s', t)
    ensures ServedInv(d, s')
  {
  }

  lemma ServedAppends(d: Discipline, s: State, s': State)
    requires LockInv(s) && OrderInv(d, s) && ServedInv(d, s) && s.queue != []
    requires s'.tickets == s.tickets && s'.nextTicket == s.nextTicket
    requires s'.queue == s.queue[1..] && s'.served == s.served + [TicketOf(s, s.queue[0])]
    ensures ServedInv(d, s')
  {
    OrderSameTickets(d, s, s');
    assert s.queue[0] in s.queue;
    if d.Fifo? {
      forall i, t | 0 <= i < |s'.served| && t in s'.queue
        ensures s'.served[i] < TicketOf(s', t)
      {
        var j :| 0 <= j < |s'.queue| && s'.queue[j] == t;
        assert s.queue[j + 1] == t;
      }
    }
  }

  lemma ServedAfterSwap(d: Discipline, maxCap: nat, s: State, a: Action)
    requires LockInv(s) && OrderInv(d, s) && ServedInv(d, s) && a.SwapInflight? && Enabled(d, maxCap, s, a)
    ensures ServedInv(d, Apply(d, maxCap, s, a))
  {
    hide ServedInv;
    var s' := Apply(d, maxCap, s, a);
    OrderSameTickets(d, s, s');
    if s'.queue != s.queue {
      assert s.queue[0] in s.queue;
      ServedAppends(d, s, s');
    } else {
      ServedSame(d, s, s');
    }
  }

  lemma ServedAfterPark(d: Discipline, maxCap: nat, s: State, t: Tid)
    requires Home(s, t) && ServedInv(d, s) && Enabled(d, maxCap, s, Park(t))
    ensures ServedInv(d, Apply(d, maxCap, s, Park(t)))
  {
    hide ServedInv;
    ServedSame(d, s, Apply(d, maxCap, s, Park(t)));
  }

  lemma ServedAfterCheck(d: Discipline, maxCap: nat, s: State, t: Tid)
    requires LockInv(s) && ServedInv(d, s) && Enabled(d, maxCap, s, Check(t))
    ensures ServedInv(d, Apply(d, maxCap, s, Check(t)))
  {
    hide ServedInv, Erased;
    var s' := Apply(d, maxCap, s, Check(t));
    ErasedRemoves(d, s.queue, t);
    OrderSameTickets(d, s, s');
    ServedSame(d, s, s');
  }

  lemma ServedStep(d: Discipline, maxCap: nat, s: State, a: Action)
    requires CellsInv(s) && LockInv(s) && OrderInv(d, s) && ServedInv(d, s) && Enabled(d, maxCap, s, a)
    ensures ServedInv(d, Apply(d, maxCap, s, a))
  {
    hide CellsInv, LockInv, OrderInv, ServedInv, Home, Apply, Fits;
    match a
    case StoreCap(c) => ServedCap(d, s, c); ApplyStoreCap(d, maxCap, s, c);
    case Check(t) => ServedAfterCheck(d, maxCap, s, t);
    case Park(t) => AtHome(s, t); ServedAfterPark(d, maxCap, s, t);
    case SwapInflight(_, _) => ServedAfterSwap(d, maxCap, s, a);
    case _ =>
      var s' := Apply(d, maxCap, s, a);
      Frame(d, maxCap, s, a);
      OrderSameTickets(d, s, s');
      ServedSame(d, s, s');
  }

  lemma ServedCap(d: Discipline, s: State, c: int)
    requires ServedInv(d, s)
    ensures ServedInv(d, s.(cap := c))
  {
    hide ServedInv;
    OrderSameTickets(d, s, s.(cap := c));
    ServedSame(d, s, s.(cap := c));
  }

  /** What thread t owes moves between the two tallies and its program counter. */
  lemma MirrorMove(s: State, s': State, t: Tid)
    requires MirrorInv(s) && t in s.pc && t in s'.pc && s'.pc == s.pc[t := s'.pc[t]]
    requires forall status ::
      Of(s'.asked, status) + Of(s.mirrored, status) + Bit(Owes(status)(s.pc[t]))
        == Of(s'.mirrored, status) + Of(s.asked, status) + Bit(Owes(status)(s'.pc[t]))
    ensures MirrorInv(s')
  {
    hide Count;
    forall status
      ensures Of(s'.asked, status) == Of(s'.mirrored, status) + Count(s'.pc, Owes(status))
    {
      CountUpdate(s.pc, t, s'.pc[t], Owes(status));
    }
  }

  lemma MirrorElsewhere(s: State, s': State, t: Tid)
    requires MirrorInv(s) && t in s.pc && t in s'.pc && s'.pc == s.pc[t := s'.pc[t]]
    requires s'.asked == s.asked && s'.mirrored == s.mirrored
    requires !s.pc[t].Completing? && !s.pc[t].Extracted? && !s'.pc[t].Completing? && !s'.pc[t].Extracted?
    ensures MirrorInv(s')
  {
    hide Count, MirrorInv;
    MirrorMove(s, s', t);
  }

  lemma MirrorOwed(d: Discipline, maxCap: nat, s: State, a: Action)
    requires IdsInv(s) && MirrorInv(s) && Enabled(d, maxCap, s, a)
    requires a.Complete? || a.Extract? || a.Mirror?
    ensures MirrorInv(Apply(d, maxCap, s, a))
  {
    hide Count, MirrorInv;
    MirrorMove(s, Apply(d, maxCap, s, a), a.t);
  }

  /** Registering never meets an entry under its own number. */
  lemma RegisterFinds(d: Discipline, maxCap: nat, s: State, t: Tid)
    requires IdsInv(s) && Home(s, t) && Enabled(d, maxCap, s, Register(t))
    ensures Apply(d, maxCap, s, Register(t)).mirrored == s.mirrored
  {
  }

  lemma MirrorRest(d: Discipline, maxCap: nat, s: State, a: Action)
    requires IdsInv(s) && MirrorInv(s) && Enabled(d, maxCap, s, a) && (!a.StoreCap? ==> Home(s, a.t))
    requires !a.StoreCap? && !a.Complete? && !a.Extract? && !a.Mirror?
    ensures MirrorInv(Apply(d, maxCap, s, a))
  {
    hide Apply, Count, MirrorInv, Fits;
    Frame(d, maxCap, s, a);
    NextPc(d, maxCap, s, a);
    if a.Register? { RegisterFinds(d, maxCap, s, a.t); }
    MirrorElsewhere(s, Apply(d, maxCap, s, a), a.t);
  }

  lemma MirrorStep(d: Discipline, maxCap: nat, s: State, a: Action)
    requires CellsInv(s) && IdsInv(s) && MirrorInv(s) && Enabled(d, maxCap, s, a)
    ensures MirrorInv(Apply(d, maxCap, s, a))
  {
    hide CellsInv, IdsInv, MirrorInv, Home;
    if a.StoreCap? {
      MirrorSame(s, a.c);
    } else if a.Complete? || a.Extract? || a.Mirror? {
      MirrorOwed(d, maxCap, s, a);
    } else {
      AtHome(s, a.t);
      MirrorRest(d, maxCap, s, a);
    }
  }

  lemma MirrorSame(s: State, c: int)
    requires MirrorInv(s)
    ensures MirrorInv(s.(cap := c))
  {
  }

  lemma AdmissionsStep(d: Discipline, maxCap: nat, s: State, a: Action)
    requires AdmissionsInv(s) && Enabled(d, maxCap, s, a)
    ensures AdmissionsInv(Apply(d, maxCap, s, a))
  {
    hide Erased, BlockingInterleaving.Moved;
  }

  lemma StepKeeps(d: Discipline, maxCap: nat, s: State, a: Action)
    requires Inv(d, maxCap, s) && Enabled(d, maxCap, s, a)
    ensures Inv(d, maxCap, Apply(d, maxCap, s, a))
  {
    hide CellsInv, IdsInv, OwnedInv, TokensInv, ReadyInv, CapInv, OrderInv, ServedInv, MirrorInv,
         AdmissionsInv, Apply, Enabled;
    CellsStep(d, maxCap, s, a);
    IdsStep(d, maxCap, s, a);
    OwnedStep(d, maxCap, s, a);
    TokensStep(d, maxCap, s, a);
    LockStep(d, maxCap, s, a);
    ReadyStep(d, maxCap, s, a);
    CapStep(d, maxCap, s, a);
    OrderStep(d, maxCap, s, a);
    ServedStep(d, maxCap, s, a);
    MirrorStep(d, maxCap, s, a);
    AdmissionsStep(d, maxCap, s, a);
  }

  lemma InitialCells(maxCap: nat, s: State)
    requires Initial(maxCap, s)
    ensures CellsInv(s) && IdsInv(s) && OwnedInv(s) && TokensInv(s.cells, s.inflight, s.nextToken)
  {
  }

  lemma InitialQueue(d: Discipline, maxCap: nat, s: State)
    requires Initial(maxCap, s)
    ensures LockInv(s) && ReadyInv(s) && CapInv(maxCap, s) && OrderInv(d, s) && ServedInv(d, s)
  {
  }

  lemma InitialTallies(maxCap: nat, s: State)
    requires Initial(maxCap, s)
    ensures MirrorInv(s) && AdmissionsInv(s)
  {
    forall status
      ensures Count(s.pc, Owes(status)) == 0
    {
      CountNone(s.pc, Owes(status));
    }
  }

  lemma InitialHolds(d: Discipline, maxCap: nat, s: State)
    requires Initial(maxCap, s)
    ensures Inv(d, maxCap, s)
  {
    hide Initial, CellsInv, IdsInv, OwnedInv, TokensInv, LockInv, ReadyInv, CapInv, OrderInv, ServedInv, MirrorInv,
         AdmissionsInv;
    InitialCells(maxCap, s);
    InitialQueue(d, maxCap, s);
    InitialTallies(maxCap, s);
  }

  lemma {:induction false} RunKeeps(d: Discipline, maxCap: nat, s: State, actions: seq<Action>)
    requires Inv(d, maxCap, s) && LegalRun(d, maxCap, s, actions)
    ensures Inv(d, maxCap, Execute(d, maxCap, s, actions))
    decreases |actions|
  {
    hide Inv, Apply, Enabled;
    if actions != [] {
      StepKeeps(d, maxCap, s, actions[0]);
      RunKeeps(d, maxCap, Apply(d, maxCap, s, actions[0]), actions[1..]);
    }
  }
}
