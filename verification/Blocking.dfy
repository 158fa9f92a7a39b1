/** The blocking limiters' operations on their fields (src/blocking_limiter.cc,
    src/lifo_blocking_limiter.cc), each region under the mutex run without interruption. Moving a
    guard is handing its reference on. */
module Blocking {
  import opened Counting
  import opened Guards
  import opened BlockingInterleaving
  import BlockingInvariant
  import BlockingSolo

  /** A parked caller: the slot it may be handed, and its notification. */
  class WaiterSlot {
    var slot: SlotGuard?
    var ready: bool

    constructor ()
      ensures slot == null && !ready
    {
      slot, ready := null, false;
    }
  }

  class BlockingLimiter {
    const delegate: AbstractLimiter
    const discipline: Discipline
    var queue: seq<WaiterSlot>
    var activeSlots: map<SlotId, SlotGuard>
    var nextSlotId: SlotId

    /** Queued waiters have no slot yet, each is queued once, and registered guards are the
        delegate's, live, and registered once under a number already given out. */
    ghost predicate Valid()
      reads this, queue, activeSlots.Values
    {
      && Distinct(queue)
      && (forall w | w in queue :: w.slot == null && !w.ready)
      && (forall id | id in activeSlots ::
            id < nextSlotId && activeSlots[id].limiter == delegate && activeSlots[id].View() == LIVE)
      && (forall id, other | id in activeSlots && other in activeSlots && id != other ::
            activeSlots[id] != activeSlots[other])
    }

    constructor (delegate: AbstractLimiter, discipline: Discipline)
      ensures Valid() && this.delegate == delegate && this.discipline == discipline
      ensures queue == [] && activeSlots == map[]
    {
      this.delegate, this.discipline := delegate, discipline;
      queue, activeSlots, nextSlotId := [], map[], 0;
    }

    /** What callers can tell of the limiter. */
    ghost function Books(): BlockingSolo.Books
      reads this, delegate
    {
      BlockingSolo.Books(delegate.inflight, |queue|, activeSlots.Keys)
    }

    /** Registers a delegate guard under a new number. */
    method Register(inner: SlotGuard) returns (id: SlotId)
      requires Valid() && inner.limiter == delegate && inner.View() == LIVE && inner !in activeSlots.Values
      modifies this`activeSlots, this`nextSlotId
      ensures Valid()
      ensures id == old(nextSlotId) && id !in old(activeSlots)
      ensures activeSlots == old(activeSlots)[id := inner]
    {
      id, nextSlotId := nextSlotId, nextSlotId + 1;
      if id !in activeSlots {
        activeSlots := activeSlots[id := inner];
      }
    }

    /** The fast path: one try on the delegate. */
    method TryFast(cap: int) returns (id: Option<SlotId>)
      requires Valid()
      modifies this`activeSlots, this`nextSlotId, delegate
      ensures Valid()
      ensures id.Some? <==> old(delegate.inflight) < cap
      ensures Books() == BlockingSolo.Acquired(old(Books()), old(nextSlotId), cap)
      ensures id.None? ==>
        && activeSlots == old(activeSlots)
        && delegate.View() == old(delegate.View()).(rejected := old(delegate.rejected) + 1)
      ensures id.Some? ==>
        && id.value in activeSlots && fresh(activeSlots[id.value]) && id.value !in old(activeSlots)
        && activeSlots == old(activeSlots)[id.value := activeSlots[id.value]]
        && delegate.View() == old(delegate.View()).(inflight := old(delegate.inflight) + 1)
    {
      var inner := delegate.TryAcquire(false, cap);
      if inner == null {
        return None;
      }
      var fast := Register(inner);
      return Some(fast);
    }

    /** The slow path: park at the back, or at the front unless the backlog is full. */
    method Park(waiter: WaiterSlot) returns (parked: bool)
      requires Valid() && waiter !in queue && waiter.slot == null && !waiter.ready
      modifies this`queue
      ensures Valid()
      ensures parked <==> discipline.Lifo? ==> |old(queue)| < discipline.backlog
      ensures queue == if !parked then old(queue)
                       else if discipline.Fifo? then old(queue) + [waiter] else [waiter] + old(queue)
    {
      match discipline {
        case Fifo =>
          queue := queue + [waiter];
        case Lifo(backlog) =>
          if |queue| >= backlog {
            return false;
          }
          queue := [waiter] + queue;
      }
      return true;
    }

    /** Linear search from the front. */
    method EraseForward(waiter: WaiterSlot)
      modifies this`queue
      ensures queue == EraseFirst(old(queue), waiter)
      ensures forall w <- queue :: w in old(queue)
    {
      var i := 0;
      while i < |queue|
        invariant 0 <= i <= |queue| && queue == old(queue)
        invariant forall j | 0 <= j < i :: queue[j] != waiter
      {
        if queue[i] == waiter {
          queue := Without(queue, i);
          return;
        }
        i := i + 1;
      }
    }

    /** Linear search from the back. */
    method EraseBackward(waiter: WaiterSlot)
      modifies this`queue
      ensures queue == EraseLast(old(queue), waiter)
      ensures forall w <- queue :: w in old(queue)
    {
      var i := |queue|;
      while i > 0
        invariant 0 <= i <= |queue| && queue == old(queue)
        invariant forall j | i <= j < |queue| :: queue[j] != waiter
      {
        if queue[i - 1] == waiter {
          queue := Without(queue, i - 1);
          return;
        }
        i := i - 1;
      }
    }

    /** After the wait, notified or timed out: take the slot handed over and register it, or leave
        the queue. */
    method FinishWait(waiter: WaiterSlot) returns (id: Option<SlotId>)
      requires Valid()
      requires waiter.slot != null ==>
        && waiter.slot.limiter == delegate && waiter.slot.View() == LIVE
        && waiter.slot !in activeSlots.Values
      modifies this
      ensures Valid()
      ensures id.Some? <==> waiter.slot != null
      ensures id.Some? ==>
        && queue == old(queue) && id.value !in old(activeSlots)
        && activeSlots == old(activeSlots)[id.value := waiter.slot]
      ensures id.None? ==>
        activeSlots == old(activeSlots) && waiter !in queue && queue == Erased(discipline, old(queue), waiter)
    {
      if waiter.slot != null {
        var slow := Register(waiter.slot);
        return Some(slow);
      }
      BlockingInvariant.ErasedRemoves(discipline, queue, waiter);
      if discipline.Fifo? {
        EraseForward(waiter);
      } else {
        EraseBackward(waiter);
      }
      return None;
    }

    /** One round of the hand-off: the delegate is tried for the waiter at the head. */
    method ServeHead(cap: int) returns (served: bool)
      requires Valid() && queue != []
      modifies this`queue, delegate, queue[0]
      ensures Valid() && activeSlots == old(activeSlots)
      ensures served <==> old(delegate.inflight) < cap
      ensures !served ==>
        && queue == old(queue)
        && delegate.View() == old(delegate.View()).(rejected := old(delegate.rejected) + 1)
      ensures served ==>
        && queue == old(queue)[1..] && HandedOver(old(queue[0])) && fresh(old(queue[0]).slot)
        && delegate.View() == old(delegate.View()).(inflight := old(delegate.inflight) + 1)
    {
      var w := queue[0];
      var inner := delegate.TryAcquire(false, cap);
      if inner == null {
        return false;
      }
      w.slot := inner;
      queue := queue[1..];
      w.ready := true;
      return true;
    }

    /** Walks the queue from its head, handing out whatever the delegate admits. */
    method Unblock(cap: int)
      requires Valid()
      modifies this`queue, delegate, queue
      ensures Valid() && activeSlots == old(activeSlots)
      ensures var k := Admissible(|old(queue)|, cap - old(delegate.inflight));
        && queue == old(queue)[k..]
        && (forall i | 0 <= i < k :: HandedOver(old(queue)[i]) && fresh(old(queue)[i].slot))
        && (forall i, j | 0 <= i < j < k :: old(queue)[i].slot != old(queue)[j].slot)
        && delegate.View() == old(delegate.View()).(
             inflight := old(delegate.inflight) + k,
             rejected := old(delegate.rejected) + if queue == [] then 0 else 1)
      ensures queue == [] || delegate.inflight >= cap
    {
      ghost var k := 0;
      while queue != []
        invariant 0 <= k <= |old(queue)| && queue == old(queue)[k..]
        invariant k == 0 || old(delegate.inflight) + k <= cap
        invariant Valid() && activeSlots == old(activeSlots)
        invariant delegate.View() == old(delegate.View()).(inflight := old(delegate.inflight) + k)
        invariant forall i | 0 <= i < k :: HandedOver(old(queue)[i]) && fresh(old(queue)[i].slot)
        invariant forall i, j | 0 <= i < j < k :: old(queue)[i].slot != old(queue)[j].slot
        decreases |queue|
      {
        var served := ServeHead(cap);
        if !served {
          return;
        }
        k := k + 1;
      }
    }

    ghost predicate HandedOver(w: WaiterSlot)
      reads w, w.slot
    {
      w.ready && w.slot != null && w.slot.limiter == delegate && w.slot.View() == LIVE
    }

    /** An outer guard reports: its inner guard is found by number, told the same status, and the
        queue is served. */
    method OnSlotComplete(id: SlotId, status: Status, cap: int)
      requires Valid()
      modifies this`queue, this`activeSlots, delegate, queue, activeSlots.Values
      ensures Valid() && activeSlots == old(activeSlots) - {id}
      ensures Books() == BlockingSolo.Completed(old(Books()), id, cap)
      ensures var freed := if id in old(activeSlots) then SlotCompleted(old(delegate.View()), status, false)
                           else old(delegate.View());
        var k := Admissible(|old(queue)|, cap - freed.inflight);
        && queue == old(queue)[k..]
        && (forall i | 0 <= i < k :: HandedOver(old(queue)[i]))
        && delegate.View() == freed.(inflight := freed.inflight + k,
                                     rejected := freed.rejected + if queue == [] then 0 else 1)
      ensures queue == [] || delegate.inflight >= cap
    {
      if id in activeSlots {
        var inner := activeSlots[id];
        activeSlots := activeSlots - {id};
        inner.Complete(status);
      }
      Unblock(cap);
    }
  }
}
