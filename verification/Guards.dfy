/** Slot guards and the outcome ledger (include/limen/limiter.h, src/abstract_limiter.cc): a
    move-only guard reports its completion to the limiter once, wherever it was moved. */
module Guards {

  datatype Status = Success | Ignored | Dropped

  /** The counters of an `AbstractLimiter`, the calls made to it, and the samples it has fed. */
  datatype Ledger = Ledger(inflight: int, success: nat, rejected: nat, dropped: nat, ignored: nat,
                           bypassed: nat, samples: nat)

  /** A guard that still owes its limiter a completion. */
  const LIVE := Guard(true, false, false)

  const EMPTY_LEDGER := Ledger(0, 0, 0, 0, 0, 0, 0)

  /** The fields of a guard that its completion depends on; `attached` says the limiter field is
      not null. */
  datatype Guard = Guard(attached: bool, bypassed: bool, completed: bool)

  predicate Live(g: Guard) { g.attached && !g.completed }

  function SlotCompleted(l: Ledger, status: Status, bypassed: bool): Ledger {
    if bypassed then l else
      var t := l.(inflight := l.inflight - 1);
      match status
      case Success => t.(success := l.success + 1, samples := l.samples + 1)
      case Ignored => t.(ignored := l.ignored + 1)
      case Dropped => t.(dropped := l.dropped + 1, samples := l.samples + 1)
  }

  class AbstractLimiter {
    var inflight: int
    var success: nat
    var rejected: nat
    var dropped: nat
    var ignored: nat
    var bypassed: nat
    var samples: nat

    function View(): Ledger
      reads this
    {
      Ledger(inflight, success, rejected, dropped, ignored, bypassed, samples)
    }

    constructor ()
      ensures View() == EMPTY_LEDGER
    {
      inflight, success, rejected, dropped, ignored, bypassed, samples := 0, 0, 0, 0, 0, 0, 0;
    }

    /** The simple limiter's gate: a compare-and-swap loop, run by a lone thread. The weak exchange
        may fail spuriously any number of times. */
    method DoAcquire(cap: int) returns (admitted: bool)
      modifies this`inflight
      ensures admitted <==> old(inflight) < cap
      ensures inflight == if admitted then old(inflight) + 1 else old(inflight)
    {
      var current := inflight;
      var spurious: nat := *;
      while true
        invariant current == inflight == old(inflight)
        decreases spurious
      {
        if current >= cap {
          return false;
        }
        if inflight == current && spurious == 0 {
          inflight := current + 1;
          return true;
        }
        current, spurious := inflight, spurious - 1;
      }
    }

    /** One call with the bypass predicate's answer and the cap it reads. */
    method TryAcquire(bypass: bool, cap: int) returns (slot: SlotGuard?)
      modifies this
      ensures slot != null ==> fresh(slot) && slot.limiter == this && slot.View() == Guard(true, bypass, false)
      ensures slot == null <==> !bypass && old(inflight) >= cap
      ensures View() ==
        if bypass then old(View()).(bypassed := old(bypassed) + 1)
        else if old(inflight) >= cap then old(View()).(rejected := old(rejected) + 1)
        else old(View()).(inflight := old(inflight) + 1)
    {
      if bypass {
        bypassed := bypassed + 1;
        slot := new SlotGuard(this, 0, true);
        return;
      }
      var admitted := DoAcquire(cap);
      if !admitted {
        rejected := rejected + 1;
        return null;
      }
      slot := new SlotGuard(this, inflight, false);
    }

    method OnSlotComplete(status: Status, wasBypassed: bool)
      modifies this
      ensures View() == SlotCompleted(old(View()), status, wasBypassed)
    {
      if wasBypassed {
        return;
      }
      inflight := inflight - 1;
      match status {
        case Success => success := success + 1;
        case Ignored => ignored := ignored + 1;
        case Dropped => dropped := dropped + 1;
      }
      if status == Success || status == Dropped {
        samples := samples + 1;
      }
    }
  }

  class SlotGuard {
    var limiter: AbstractLimiter?
    var inflightAtAcquire: int
    var bypassed: bool
    var completed: bool

    function View(): Guard
      reads this
    {
      Guard(limiter != null, bypassed, completed)
    }

    constructor (limiter: AbstractLimiter, inflightAtAcquire: int, bypassed: bool)
      ensures this.limiter == limiter && this.inflightAtAcquire == inflightAtAcquire
      ensures View() == Guard(true, bypassed, false)
    {
      this.limiter, this.inflightAtAcquire := limiter, inflightAtAcquire;
      this.bypassed, this.completed := bypassed, false;
    }

    /** Move construction: the new guard takes over and the source is detached. */
    constructor Moved(other: SlotGuard)
      modifies other
      ensures limiter == old(other.limiter) && View() == old(other.View())
      ensures inflightAtAcquire == old(other.inflightAtAcquire)
      ensures other.View() == old(other.View()).(attached := false)
    {
      limiter, inflightAtAcquire := other.limiter, other.inflightAtAcquire;
      bypassed, completed := other.bypassed, other.completed;
      new;
      other.limiter := null;
    }

    /** Only a live guard reports, and it reports once. */
    method Complete(status: Status)
      modifies this, limiter
      ensures limiter == old(limiter)
      ensures View() == old(View()).(completed := old(completed || limiter != null))
      ensures old(Live(View())) ==> limiter.View() == SlotCompleted(old(limiter.View()), status, bypassed)
      ensures !old(Live(View())) && limiter != null ==> limiter.View() == old(limiter.View())
    {
      if limiter == null || completed {
        return;
      }
      limiter.OnSlotComplete(status, bypassed);
      completed := true;
    }

    /** Move assignment: a live target is completed as ignored before it takes the source over. */
    method MoveAssign(other: SlotGuard)
      modifies this, other, limiter
      ensures other == this ==> View() == old(View()) && limiter == old(limiter)
      ensures other == this && limiter != null ==> limiter.View() == old(limiter.View())
      ensures other != this ==>
        && limiter == old(other.limiter) && View() == old(other.View())
        && other.View() == old(other.View()).(attached := false)
      ensures other != this && old(Live(View())) ==>
        old(limiter).View() == SlotCompleted(old(limiter.View()), Ignored, old(bypassed))
      ensures other != this && !old(Live(View())) && old(limiter) != null ==>
        old(limiter).View() == old(limiter.View())
    {
      if this != other {
        if limiter != null && !completed {
          limiter.OnSlotComplete(Ignored, bypassed);
        }
        limiter, inflightAtAcquire := other.limiter, other.inflightAtAcquire;
        bypassed, completed := other.bypassed, other.completed;
        other.limiter := null;
      }
    }

    /** The destructor: a live guard is completed as ignored. */
    method Destroy()
      modifies limiter
      ensures old(Live(View())) ==> limiter.View() == SlotCompleted(old(limiter.View()), Ignored, bypassed)
      ensures !old(Live(View())) && limiter != null ==> limiter.View() == old(limiter.View())
    {
      if limiter != null && !completed {
        limiter.OnSlotComplete(Ignored, bypassed);
      }
    }
  }
}
