/** The CoDel filter (src/codel_filter.cc): RFC 8289's drop decision, one item per call.
    Times and durations are reals; the square root is any function that squares to its argument. */
module Codel {

  datatype Config = Config(target: real, interval: real, root: nat -> real)

  ghost predicate SquareRoot(root: nat -> real) {
    forall n: nat :: 0.0 <= root(n) && root(n) * root(n) == n as real
  }

  ghost predicate Sound(c: Config) {
    0.0 < c.target && 0.0 < c.interval && SquareRoot(c.root)
  }

  /** Stands for "unset", like the zero of RFC 8289. */
  const EPOCH: real := 0.0

  datatype State = State(firstAbove: real, dropNext: real, count: nat, lastCount: nat,
                         dropping: bool, drops: nat)

  const INITIAL := State(EPOCH, EPOCH, 0, 0, false, 0)

  lemma RootPositive(c: Config, n: nat)
    requires Sound(c) && 1 <= n
    ensures 0.0 < c.root(n)
  {
    assert c.root(n) * c.root(n) == n as real;
  }

  /** The gap to the next scheduled drop after `count` drops. */
  function Gap(c: Config, count: nat): real
    requires Sound(c) && 1 <= count
  {
    RootPositive(c, count);
    c.interval / c.root(count)
  }

  function ControlLaw(c: Config, t: real, count: nat): real
    requires Sound(c) && 1 <= count
  {
    t + Gap(c, count)
  }

  lemma GapPositive(c: Config, count: nat)
    requires Sound(c) && 1 <= count
    ensures 0.0 < Gap(c, count)
  {
    RootPositive(c, count);
    assert Gap(c, count) * c.root(count) == c.interval;
  }

  /** The gap times the square root of the count is the interval. */
  lemma GapTimesRoot(c: Config, count: nat)
    requires Sound(c) && 1 <= count
    ensures 0.0 < c.root(count) && Gap(c, count) * c.root(count) == c.interval
    ensures Gap(c, 1) == c.interval
  {
    RootPositive(c, count);
    RootPositive(c, 1);
    RootOfOne(c.root(1));
  }

  lemma RootOfOne(x: real)
    requires 0.0 < x && x * x == 1.0
    ensures x == 1.0
  {
    var d := x - 1.0;
    assert d * (x + 1.0) == x * x - 1.0;
    assert 0.0 < d ==> 0.0 < d * (x + 1.0);
    assert d < 0.0 ==> d * (x + 1.0) < 0.0;
  }

  /** Drops come faster as the count grows: the gap's square is interval squared over the count. */
  lemma GapShrinks(c: Config, count: nat, more: nat)
    requires Sound(c) && 1 <= count < more
    ensures Gap(c, count) * Gap(c, count) * count as real == c.interval * c.interval
    ensures Gap(c, more) < Gap(c, count)
  {
    GapTimesRoot(c, count);
    GapTimesRoot(c, more);
    GapPositive(c, count);
    SquareOfProduct(Gap(c, count), c.root(count));
    RootsInOrder(c.root(count), c.root(more), count as real, more as real);
    SmallerFactor(Gap(c, count), c.root(count), Gap(c, more), c.root(more));
  }

  lemma SquareOfProduct(x: real, y: real)
    ensures x * x * (y * y) == x * y * (x * y)
  {
  }

  lemma RootsInOrder(x: real, y: real, m: real, n: real)
    requires 0.0 < x && 0.0 < y && x * x == m && y * y == n && m < n
    ensures x < y
  {
    var d := y - x;
    assert d * (y + x) == y * y - x * x;
    assert d <= 0.0 ==> d * (y + x) <= 0.0;
  }

  /** Of two products of the same positive value the one with the larger factor has the smaller other. */
  lemma SmallerFactor(g: real, x: real, h: real, y: real)
    requires 0.0 < g && 0.0 < x < y && g * x == h * y
    ensures h < g
  {
    var d, e := y - x, g - h;
    assert 0.0 < g * d;
    assert e * y == g * d;
    assert e <= 0.0 ==> e * y <= 0.0;
  }

  /** Time in the queue, never negative even for an enqueue stamp in the future. */
  function Sojourn(now: real, enqueue: real): real {
    if now - enqueue < 0.0 then 0.0 else now - enqueue
  }

  /** The new first-above time and whether the item may be dropped. */
  function DropVerdict(c: Config, firstAbove: real, sojourn: real, now: real): (real, bool) {
    if sojourn < c.target then (EPOCH, false)
    else if firstAbove == EPOCH then (now + c.interval, false)
    else (firstAbove, firstAbove <= now)
  }

  const COUNTER_RANGE: nat := 0x1_0000_0000

  /** The difference of two 32-bit unsigned counters, which wraps when y is the larger. */
  function UnsignedDifference(x: nat, y: nat): nat { (x - y) % COUNTER_RANGE }

  /** The count a new episode starts from: the previous episode's growth if that was recent. */
  function EntryCount(c: Config, s: State, now: real): nat {
    var delta := UnsignedDifference(s.count, s.lastCount);
    if 1 < delta && now - s.dropNext < 16.0 * c.interval then delta else 1
  }

  datatype Outcome = Outcome(state: State, drop: bool)

  function Decide(c: Config, s: State, now: real, enqueue: real): Outcome
    requires Sound(c)
  {
    var (firstAbove, ok) := DropVerdict(c, s.firstAbove, Sojourn(now, enqueue), now);
    var t := s.(firstAbove := firstAbove);
    if s.dropping then
      if !ok then Outcome(t.(dropping := false), false)
      else if s.dropNext <= now then
        var count := s.count + 1;
        Outcome(t.(count := count, dropNext := ControlLaw(c, s.dropNext, count), drops := s.drops + 1), true)
      else Outcome(t, false)
    else if ok then
      var count := EntryCount(c, s, now);
      Outcome(t.(dropping := true, count := count, lastCount := count,
                 dropNext := ControlLaw(c, now, count), drops := s.drops + 1), true)
    else Outcome(t, false)
  }

  class CodelFilter {
    const config: Config
    var firstAboveTime: real
    var dropNext: real
    var count: nat
    var lastCount: nat
    var dropping: bool
    var dropCount: nat

    function View(): State
      reads this
    {
      State(firstAboveTime, dropNext, count, lastCount, dropping, dropCount)
    }

    constructor (config: Config)
      ensures this.config == config && View() == INITIAL
    {
      this.config := config;
      firstAboveTime, dropNext := EPOCH, EPOCH;
      count, lastCount, dropping, dropCount := 0, 0, false, 0;
    }

    method ShouldDrop(now: real, enqueueTime: real) returns (drop: bool)
      requires Sound(config)
      modifies this
      ensures Outcome(View(), drop) == Decide(config, old(View()), now, enqueueTime)
    {
      var sojourn := if now - enqueueTime < 0.0 then 0.0 else now - enqueueTime;
      var ok := OkToDrop(sojourn, now);
      if dropping {
        if !ok {
          dropping := false;
          return false;
        }
        if dropNext <= now {
          count := count + 1;
          dropNext := ControlLaw(config, dropNext, count);
          dropCount := dropCount + 1;
          return true;
        }
        return false;
      }
      if ok {
        dropping := true;
        var delta := UnsignedDifference(count, lastCount);
        count := 1;
        if 1 < delta && now - dropNext < 16.0 * config.interval {
          count := delta;
        }
        dropNext := ControlLaw(config, now, count);
        lastCount := count;
        dropCount := dropCount + 1;
        return true;
      }
      return false;
    }

    method OkToDrop(sojourn: real, now: real) returns (ok: bool)
      modifies this`firstAboveTime
      ensures (firstAboveTime, ok) == DropVerdict(config, old(firstAboveTime), sojourn, now)
    {
      if sojourn < config.target {
        firstAboveTime := EPOCH;
        return false;
      }
      if firstAboveTime == EPOCH {
        firstAboveTime := now + config.interval;
        return false;
      }
      if firstAboveTime <= now {
        return true;
      }
      return false;
    }
  }
}
