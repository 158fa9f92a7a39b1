/** Whole histories of the CoDel filter: when it drops, how fast, and how episodes follow. */
module CodelRuns {
  import opened Codel
  import opened Counting

  /** One consultation of the filter: the clock reading and the item's enqueue stamp. */
  datatype Call = Call(now: real, enqueue: real)

  type History = seq<Call>

  /** Clock readings after the epoch. */
  ghost predicate AfterEpoch(h: History) { forall i | 0 <= i < |h| :: EPOCH < h[i].now }

  ghost predicate Monotone(h: History) {
    AfterEpoch(h) && forall i, j | 0 <= i < j < |h| :: h[i].now <= h[j].now
  }

  function Last(h: History): Call
    requires h != []
  {
    h[|h| - 1]
  }

  function Before(h: History): History
    requires h != []
  {
    h[..|h| - 1]
  }

  function After(c: Config, h: History): State
    requires Sound(c)
    decreases |h|
  {
    if h == [] then INITIAL
    else Decide(c, After(c, Before(h)), Last(h).now, Last(h).enqueue).state
  }

  function LastOutcome(c: Config, h: History): Outcome
    requires Sound(c) && h != []
  {
    Decide(c, After(c, Before(h)), Last(h).now, Last(h).enqueue)
  }

  // ---------- Drops happen exactly during standing delay ----------

  predicate Above(c: Config, call: Call) { c.target <= Sojourn(call.now, call.enqueue) }

  /** Where the current unbroken run of above-target calls began; |h| if the last was below. */
  function RunStart(c: Config, h: History): (start: nat)
    ensures start <= |h|
    ensures forall i | start <= i < |h| :: Above(c, h[i])
    ensures 0 < start ==> !Above(c, h[start - 1])
  {
    if h == [] || !Above(c, Last(h)) then |h|
    else var start := RunStart(c, Before(h)); assert Before(h) < h; start
  }

  /** The delay has stood for at least an interval: the run began that long before the last call. */
  ghost predicate Standing(c: Config, h: History) {
    var start := RunStart(c, h);
    start < |h| && h[start].now + c.interval <= Last(h).now
  }

  /** After any history the filter is in its dropping state exactly when the delay is standing, so
      no item is ever dropped otherwise. The clock need not be monotone. */
  lemma {:induction false} DroppingIffStanding(c: Config, h: History)
    requires Sound(c) && AfterEpoch(h)
    ensures After(c, h).dropping <==> Standing(c, h)
    ensures After(c, h).firstAbove
      == if RunStart(c, h) < |h| then h[RunStart(c, h)].now + c.interval else EPOCH
    ensures h != [] && LastOutcome(c, h).drop ==> Standing(c, h)
  {
    if h != [] {
      var b := Before(h);
      DroppingIffStanding(c, b);
      assert RunStart(c, b) < |b| ==> b[RunStart(c, b)] == h[RunStart(c, b)];
    }
  }

  // ---------- The drop schedule of an episode ----------

  /** The clock reading at which the current episode began. */
  function EntryTime(c: Config, h: History): real
    requires Sound(c) && After(c, h).dropping
    decreases |h|
  {
    if After(c, Before(h)).dropping then EntryTime(c, Before(h)) else Last(h).now
  }

  /** The sum of interval/sqrt(j) for j from `first` to `last`. */
  function GapSum(c: Config, first: nat, last: nat): real
    requires Sound(c) && 1 <= first
  {
    if last < first then 0.0 else GapSum(c, first, last - 1) + Gap(c, last)
  }

  /** The unsigned difference of the counters never wraps: the count never falls behind the count
      its episode began with. */
  lemma {:induction false} CountOrder(c: Config, h: History)
    requires Sound(c)
    ensures After(c, h).lastCount <= After(c, h).count
    ensures 0 < After(c, h).drops ==> 1 <= After(c, h).lastCount
    ensures After(c, h).drops == 0 ==> After(c, h).count == 0
    ensures After(c, h).dropping ==> 0 < After(c, h).drops
    decreases |h|
  {
    if h != [] {
      CountOrder(c, Before(h));
    }
  }

  /** While dropping, the next drop is due at the entry time plus one gap per drop so far. */
  lemma {:induction false} DropSchedule(c: Config, h: History)
    requires Sound(c) && After(c, h).dropping
    ensures 1 <= After(c, h).lastCount <= After(c, h).count
    ensures After(c, h).dropNext == EntryTime(c, h) + GapSum(c, After(c, h).lastCount, After(c, h).count)
    decreases |h|
  {
    hide Gap, UnsignedDifference;
    CountOrder(c, h);
    var b := Before(h);
    if After(c, b).dropping {
      DropSchedule(c, b);
    } else {
      assert GapSum(c, After(c, h).count, After(c, h).count - 1) == 0.0;
    }
  }

  /** Twice the interval times the growth of the square root from count x to count y. */
  function RootGrowth(c: Config, x: nat, y: nat): real { 2.0 * c.interval * (c.root(y) - c.root(x)) }

  /** Consecutive square roots differ by at most half the inverse of the smaller. */
  lemma RootStep(c: Config, j: nat)
    requires Sound(c) && 1 <= j
    ensures RootGrowth(c, j, j + 1) <= Gap(c, j)
  {
    var x, y, gap := c.root(j), c.root(j + 1), Gap(c, j);
    RootPositive(c, j);
    RootPositive(c, j + 1);
    assert x * x == j as real && y * y == (j + 1) as real;
    RootDifference(x, y);
    assert gap * x == c.interval;
    GapPositive(c, j);
    ScaledStep(gap, x, y, c.interval);
  }

  lemma RootDifference(x: real, y: real)
    requires 0.0 < x && 0.0 < y && y * y == x * x + 1.0
    ensures x <= y && 2.0 * x * (y - x) <= 1.0
  {
    assert (y - x) * (y + x) == 1.0;
    assert 0.0 <= (y - x) * (y - x);
    assert (y - x) * (y + x) == (y - x) * (y - x) + 2.0 * x * (y - x);
  }

  lemma ScaledStep(gap: real, x: real, y: real, interval: real)
    requires 0.0 < gap && gap * x == interval && 2.0 * x * (y - x) <= 1.0
    ensures 2.0 * interval * (y - x) <= gap
  {
    var step := 2.0 * x * (y - x);
    assert gap * step <= gap;
    assert 2.0 * interval * (y - x) == gap * step;
  }

  /** The schedule's gaps cover at least the growth of the square root. */
  lemma {:induction false} GapSumCoversRoot(c: Config, first: nat, last: nat)
    requires Sound(c) && 1 <= first <= last + 1
    ensures RootGrowth(c, first, last + 1) <= GapSum(c, first, last)
    decreases last
  {
    hide Gap, RootGrowth;
    if first <= last {
      if first < last {
        GapSumCoversRoot(c, first, last - 1);
      }
      RootStep(c, last);
      Telescope(c, first, last, last + 1);
    } else {
      Telescope(c, first, first, first);
    }
  }

  /** ... and at most that growth up to the last count, plus the first gap. */
  lemma {:induction false} GapSumWithinRoot(c: Config, first: nat, last: nat)
    requires Sound(c) && 1 <= first <= last
    ensures GapSum(c, first, last) <= RootGrowth(c, first, last) + Gap(c, first)
    decreases last
  {
    hide RootGrowth, Gap;
    Telescope(c, first, first, first);
    if first < last {
      GapSumWithinRoot(c, first, last - 1);
      RootStepBelow(c, last);
      Telescope(c, first, last - 1, last);
    } else {
      assert GapSum(c, first, first - 1) == 0.0;
    }
  }

  /** ... and by at least half the inverse of the larger. */
  lemma RootStepBelow(c: Config, j: nat)
    requires Sound(c) && 2 <= j
    ensures Gap(c, j) <= RootGrowth(c, j - 1, j)
  {
    hide Gap;
    var x, y := c.root(j - 1), c.root(j);
    RootPositive(c, j - 1);
    RootPositive(c, j);
    assert x * x == (j - 1) as real && y * y == j as real;
    RootDifferenceBelow(x, y);
    GapTimesRoot(c, j);
    GapPositive(c, j);
    ScaledStepBelow(Gap(c, j), x, y, c.interval);
  }

  lemma RootDifferenceBelow(x: real, y: real)
    requires 0.0 < x && 0.0 < y && y * y == x * x + 1.0
    ensures 1.0 <= 2.0 * y * (y - x)
  {
    assert (y - x) * (y + x) == 1.0;
    assert 0.0 <= (y - x) * (y - x);
    assert 2.0 * y * (y - x) == (y - x) * (y + x) + (y - x) * (y - x);
  }

  lemma ScaledStepBelow(gap: real, x: real, y: real, interval: real)
    requires 0.0 < gap && gap * y == interval && 1.0 <= 2.0 * y * (y - x)
    ensures gap <= 2.0 * interval * (y - x)
  {
    var step := 2.0 * y * (y - x);
    assert gap <= gap * step;
    assert 2.0 * interval * (y - x) == gap * step;
  }

  /** While dropping, the next drop is due no earlier than twice the interval times the growth of the
      square root over the episode, and no later than interval/sqrt(lastcount) beyond that of the last
      count. */
  lemma ScheduleBounds(c: Config, h: History)
    requires Sound(c) && After(c, h).dropping
    ensures var (first, count) := (After(c, h).lastCount, After(c, h).count);
      var elapsed := After(c, h).dropNext - EntryTime(c, h);
      1 <= first && RootGrowth(c, first, count + 1) <= elapsed <= RootGrowth(c, first, count) + Gap(c, first)
  {
    hide After, EntryTime, Gap, GapSum, RootGrowth, SquareRoot;
    DropSchedule(c, h);
    GapSumCoversRoot(c, After(c, h).lastCount, After(c, h).count);
    GapSumWithinRoot(c, After(c, h).lastCount, After(c, h).count);
  }

  lemma Telescope(c: Config, x: nat, y: nat, z: nat)
    ensures RootGrowth(c, x, z) == RootGrowth(c, x, y) + RootGrowth(c, y, z)
    ensures RootGrowth(c, x, x) == 0.0
  {
  }

  /** Every drop after the first waited for its scheduled time, so the square root of the count
      grows at most linearly over an episode. */
  lemma {:induction false} RootGrowsLinearly(c: Config, h: History)
    requires Sound(c) && Monotone(h) && After(c, h).dropping
    ensures RootGrowth(c, After(c, h).lastCount, After(c, h).count) <= Last(h).now - EntryTime(c, h)
    decreases |h|
  {
    hide Gap, RootGrowth, UnsignedDifference;
    var b := Before(h);
    var s, t := After(c, b), After(c, h);
    if s.dropping {
      RootGrowsLinearly(c, b);
      assert Last(b).now <= Last(h).now;
      if LastOutcome(c, h).drop {
        DropSchedule(c, b);
        GapSumCoversRoot(c, s.lastCount, s.count);
      }
    } else {
      Telescope(c, t.count, t.count, t.count);
    }
  }

  /** Drop-rate bound: at any time t of an episode that began at count L, the count is at most
      (sqrt(L) + (t - entry) / (2 * interval)) squared. */
  lemma DropRate(c: Config, h: History, t: real)
    requires Sound(c) && Monotone(h) && After(c, h).dropping
    requires h != [] && Last(h).now <= t
    ensures EntryTime(c, h) <= t
    ensures var bound := c.root(After(c, h).lastCount) + (t - EntryTime(c, h)) / (2.0 * c.interval);
      After(c, h).count as real <= bound * bound
  {
    hide After, EntryTime, RootGrowth;
    RootGrowsLinearly(c, h);
    EntryBeforeNow(c, h);
    CountBound(c, After(c, h).lastCount, After(c, h).count, t - EntryTime(c, h));
  }

  lemma CountBound(c: Config, first: nat, count: nat, elapsed: real)
    requires Sound(c) && RootGrowth(c, first, count) <= elapsed
    ensures var bound := c.root(first) + elapsed / (2.0 * c.interval);
      count as real <= bound * bound
  {
    var x, bound := c.root(count), c.root(first) + elapsed / (2.0 * c.interval);
    Divided(2.0 * c.interval, x - c.root(first), elapsed);
    assert x * x == count as real && 0.0 <= x;
    SquaresInOrder(x, bound);
  }

  lemma Divided(k: real, x: real, y: real)
    requires 0.0 < k && k * x <= y
    ensures x <= y / k
  {
    var q := y / k;
    assert k * q == y;
    assert k * (q - x) == k * q - k * x;
  }

  lemma SquaresInOrder(x: real, y: real)
    requires 0.0 <= x <= y
    ensures x * x <= y * y
  {
    assert y * y - x * x == (y - x) * (y + x);
  }

  lemma {:induction false} EntryBeforeNow(c: Config, h: History)
    requires Sound(c) && Monotone(h) && After(c, h).dropping
    ensures EntryTime(c, h) <= Last(h).now
    decreases |h|
  {
    if After(c, Before(h)).dropping {
      EntryBeforeNow(c, Before(h));
      assert Last(Before(h)).now <= Last(h).now;
    }
  }

  // ---------- Episodes ----------

  /** The clock reading of the most recent drop. */
  function LastDropTime(c: Config, h: History): real
    requires Sound(c) && 0 < After(c, h).drops
    decreases |h|
  {
    if LastOutcome(c, h).drop then Last(h).now else LastDropTime(c, Before(h))
  }

  /** The next drop is never scheduled more than interval/sqrt(count) after the last one, so "now
      minus the next drop time" stands in for the time since the last drop. */
  lemma {:induction false} NextDropWithinGap(c: Config, h: History)
    requires Sound(c) && 0 < After(c, h).drops
    ensures 1 <= After(c, h).count
    ensures After(c, h).dropNext <= LastDropTime(c, h) + Gap(c, After(c, h).count)
    decreases |h|
  {
    hide Gap;
    CountOrder(c, h);
    if !LastOutcome(c, h).drop {
      NextDropWithinGap(c, Before(h));
    }
  }

  /** A drop puts the next one interval/sqrt(count) after its own due time, or after now in a new
      episode. */
  lemma DropSchedules(c: Config, h: History)
    requires Sound(c) && h != [] && LastOutcome(c, h).drop
    ensures 1 <= After(c, h).count
    ensures var s := After(c, Before(h));
      var due := if s.dropping then s.dropNext else Last(h).now;
      && due <= Last(h).now
      && (After(c, h).dropNext - due) * c.root(After(c, h).count) == c.interval
  {
    hide After, Gap, Decide;
    AfterIsOutcome(c, h);
    var s := After(c, Before(h));
    DecideSchedules(c, s, Last(h).now, Last(h).enqueue);
    var due := if s.dropping then s.dropNext else Last(h).now;
    GapTimesRoot(c, After(c, h).count);
    SameProduct(After(c, h).dropNext - due, Gap(c, After(c, h).count), c.root(After(c, h).count), c.interval);
  }

  lemma SameProduct(wait: real, gap: real, root: real, interval: real)
    requires wait == gap && gap * root == interval
    ensures wait * root == interval
  {
  }

  lemma DecideSchedules(c: Config, s: State, now: real, enqueue: real)
    requires Sound(c) && Decide(c, s, now, enqueue).drop
    ensures var t := Decide(c, s, now, enqueue).state;
      var due := if s.dropping then s.dropNext else now;
      1 <= t.count && due <= now && t.dropNext - due == Gap(c, t.count)
  {
    hide Gap, UnsignedDifference;
  }

  lemma AfterIsOutcome(c: Config, h: History)
    requires Sound(c) && h != []
    ensures After(c, h) == LastOutcome(c, h).state
  {
  }

  /** How many items each episode dropped, oldest first, read off the decisions alone. */
  function EpisodeDrops(c: Config, h: History): seq<nat>
    requires Sound(c)
    decreases |h|
  {
    if h == [] then []
    else
      var earlier := EpisodeDrops(c, Before(h));
      if !LastOutcome(c, h).drop then earlier
      else if After(c, Before(h)).dropping && earlier != [] then
        earlier[..|earlier| - 1] + [earlier[|earlier| - 1] + 1]
      else earlier + [1]
  }

  /** The drops of the episodes add up to the drop counter, and the two counters tell the drops of
      the latest episode: count - lastcount + 1. */
  lemma {:induction false} EpisodeAccounting(c: Config, h: History)
    requires Sound(c)
    ensures Sum(EpisodeDrops(c, h)) == After(c, h).drops
    ensures EpisodeDrops(c, h) == [] <==> After(c, h).drops == 0
    ensures var log := EpisodeDrops(c, h);
      log != [] ==> log[|log| - 1] == After(c, h).count - After(c, h).lastCount + 1
    decreases |h|
  {
    CountOrder(c, h);
    if h != [] {
      EpisodeAccounting(c, Before(h));
      CountOrder(c, Before(h));
      var earlier, log := EpisodeDrops(c, Before(h)), EpisodeDrops(c, h);
      if LastOutcome(c, h).drop {
        if After(c, Before(h)).dropping {
          assert earlier == earlier[..|earlier| - 1] + [earlier[|earlier| - 1]];
          SumAppend(earlier[..|earlier| - 1], earlier[|earlier| - 1]);
          SumAppend(earlier[..|earlier| - 1], earlier[|earlier| - 1] + 1);
        } else {
          SumAppend(earlier, 1);
        }
      }
    }
  }

  /** A new episode starts from the drops of the previous one less one, when those exceed two and
      that episode's next drop was due less than sixteen intervals ago; otherwise from one. */
  lemma NextEpisodeStart(c: Config, h: History)
    requires Sound(c) && h != []
    requires !After(c, Before(h)).dropping && After(c, h).dropping
    requires After(c, Before(h)).count < COUNTER_RANGE
    ensures var log, s := EpisodeDrops(c, Before(h)), After(c, Before(h));
      && After(c, h).count == After(c, h).lastCount
      && After(c, h).lastCount
        == (if log != [] && 2 < log[|log| - 1] && Last(h).now - s.dropNext < 16.0 * c.interval
            then log[|log| - 1] - 1 else 1)
  {
    hide After, UnsignedDifference;
    CountOrder(c, Before(h));
    EpisodeAccounting(c, Before(h));
    NoWrap(After(c, Before(h)).count, After(c, Before(h)).lastCount);
    EntryStep(c, h);
  }

  lemma EntryStep(c: Config, h: History)
    requires Sound(c) && h != []
    requires !After(c, Before(h)).dropping && After(c, h).dropping
    ensures After(c, h).count == After(c, h).lastCount == EntryCount(c, After(c, Before(h)), Last(h).now)
  {
    hide EntryCount, Gap;
  }

  lemma NoWrap(x: nat, y: nat)
    requires y <= x < COUNTER_RANGE
    ensures UnsignedDifference(x, y) == x - y
  {
  }
}
