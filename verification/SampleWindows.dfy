/** The two sample windows (src/average_sample_window.cc, src/percentile_sample_window.cc): fixed
    fields that stand for the list of samples added since the last reset. */
module SampleWindows {
  import opened OrderStatistics
  import Counting

  datatype Sample = Sample(rtt: int, inflight: int, drop: bool)

  const INT64_MAX := 0x7FFF_FFFF_FFFF_FFFF

  // ---------- What a list of samples amounts to ----------

  /** The least round trip, or the largest machine integer if there is none below it. */
  function LeastRtt(s: seq<Sample>): int {
    if s == [] then INT64_MAX
    else
      var least, last := LeastRtt(s[..|s| - 1]), s[|s| - 1].rtt;
      if last < least then last else least
  }

  /** The greatest in-flight count, or zero if there is none above it. */
  function MostInflight(s: seq<Sample>): int {
    if s == [] then 0
    else
      var most, last := MostInflight(s[..|s| - 1]), s[|s| - 1].inflight;
      if last > most then last else most
  }

  predicate AnyDrop(s: seq<Sample>) { exists i | 0 <= i < |s| :: s[i].drop }

  function SumRtt(s: seq<Sample>): int {
    if s == [] then 0 else SumRtt(s[..|s| - 1]) + s[|s| - 1].rtt
  }

  function Rtts(s: seq<Sample>): (r: seq<int>)
    ensures |r| == |s| && forall i | 0 <= i < |s| :: r[i] == s[i].rtt
  {
    seq(|s|, i requires 0 <= i < |s| => s[i].rtt)
  }

  /** Integer division rounding towards zero, by a positive number. */
  function Quotient(x: int, n: int): int
    requires n > 0
  {
    if x >= 0 then x / n else -((-x) / n)
  }

  /** Rounding to the nearest integer, halves away from zero. */
  function Round(x: real): int { if x >= 0.0 then (x + 0.5).Floor else -((-x + 0.5).Floor) }

  function WantedRank(percentile: real, n: nat): int { Round(n as real * percentile) - 1 }

  /** The zero-based rank of a percentile among n samples, clamped into range. */
  function RankOf(percentile: real, n: nat): (k: nat)
    requires n > 0
    ensures k < n
  {
    var wanted := WantedRank(percentile, n);
    var low := if wanted < n - 1 then wanted else n - 1;
    if low > 0 then low else 0
  }

  /** The kind of window, which decides the round trip it reports. */
  datatype Kind = Mean | AtPercentile(percentile: real, maxSamples: nat)

  /** The round trips of the samples the array has room for: the first ones. */
  function Usable(s: seq<Sample>, maxSamples: nat): (r: seq<int>)
    ensures |r| <= |s| && |r| <= maxSamples && (|r| == |s| || |r| == maxSamples)
    ensures forall i | 0 <= i < |r| :: r[i] == s[i].rtt
  {
    Rtts(s)[..if |s| < maxSamples then |s| else maxSamples]
  }

  /** The element at the percentile's rank. */
  function Percentile(percentile: real, usable: seq<int>): int
    requires usable != []
  {
    SortSorts(usable);
    Sort(usable)[RankOf(percentile, |usable|)]
  }

  /** There is something to report unless samples came and the array has room for none: then the code
      reads an element of an empty buffer. */
  predicate Reportable(kind: Kind, s: seq<Sample>) { s == [] || kind.Mean? || 0 < kind.maxSamples }

  function TrackedRtt(kind: Kind, s: seq<Sample>): int
    requires Reportable(kind, s)
  {
    if s == [] then 0
    else match kind
      case Mean => Quotient(SumRtt(s), |s|)
      case AtPercentile(percentile, maxSamples) => Percentile(percentile, Usable(s, maxSamples))
  }

  // ---------- The windows ----------

  class AverageSampleWindow {
    var sampleCount: nat
    var sumRtt: int
    var minRtt: int
    var maxInflight: int
    var didDrop: bool
    ghost var samples: seq<Sample>

    ghost predicate Valid()
      reads this
    {
      && sampleCount == |samples| && sumRtt == SumRtt(samples)
      && minRtt == LeastRtt(samples) && maxInflight == MostInflight(samples) && didDrop == AnyDrop(samples)
    }

    constructor ()
      ensures Valid() && samples == []
    {
      sampleCount, sumRtt, minRtt, maxInflight, didDrop, samples := 0, 0, INT64_MAX, 0, false, [];
    }

    /** A compare-and-swap loop whose weak exchange may fail spuriously. */
    method LowerMin(rtt: int)
      modifies this`minRtt
      ensures minRtt == if rtt < old(minRtt) then rtt else old(minRtt)
    {
      var currentMin, spurious: nat := minRtt, *;
      while rtt < currentMin
        invariant currentMin == minRtt
        invariant minRtt == old(minRtt) || minRtt == rtt < old(minRtt)
        decreases currentMin - rtt, spurious
      {
        if spurious == 0 {
          minRtt, currentMin := rtt, rtt;
        } else {
          currentMin, spurious := minRtt, spurious - 1;
        }
      }
    }

    method RaiseMax(inflight: int)
      modifies this`maxInflight
      ensures maxInflight == if inflight > old(maxInflight) then inflight else old(maxInflight)
    {
      var currentMax, spurious: nat := maxInflight, *;
      while inflight > currentMax
        invariant currentMax == maxInflight
        invariant maxInflight == old(maxInflight) || maxInflight == inflight > old(maxInflight)
        decreases inflight - currentMax, spurious
      {
        if spurious == 0 {
          maxInflight, currentMax := inflight, inflight;
        } else {
          currentMax, spurious := maxInflight, spurious - 1;
        }
      }
    }

    method AddSample(rtt: int, inflight: int, drop: bool)
      requires Valid()
      modifies this
      ensures Valid() && samples == old(samples) + [Sample(rtt, inflight, drop)]
    {
      sampleCount := sampleCount + 1;
      sumRtt := sumRtt + rtt;
      LowerMin(rtt);
      RaiseMax(inflight);
      if drop {
        didDrop := true;
      }
      Extended(samples, Sample(rtt, inflight, drop));
      samples := samples + [Sample(rtt, inflight, drop)];
    }

    method TrackedRttNs() returns (rtt: int)
      requires Valid()
      ensures rtt == TrackedRtt(Mean, samples)
    {
      if sampleCount == 0 {
        return 0;
      }
      return Quotient(sumRtt, sampleCount);
    }

    method Reset()
      modifies this
      ensures Valid() && samples == []
    {
      sampleCount, sumRtt, minRtt, maxInflight, didDrop, samples := 0, 0, INT64_MAX, 0, false, [];
    }
  }

  class PercentileSampleWindow {
    const percentile: real
    const maxSamples: nat
    const rtts: array<int>
    var sortBuffer: seq<int>
    var sampleCount: nat
    var minRtt: int
    var maxInflight: int
    var didDrop: bool
    ghost var samples: seq<Sample>

    /** The array holds the first samples since the reset; what lies behind them is stale. */
    ghost predicate Valid()
      reads this, rtts
    {
      && maxSamples == rtts.Length && sampleCount == |samples|
      && (forall i | 0 <= i < |samples| && i < maxSamples :: rtts[i] == samples[i].rtt)
      && minRtt == LeastRtt(samples) && maxInflight == MostInflight(samples) && didDrop == AnyDrop(samples)
    }

    constructor (percentile: real, maxSamples: nat)
      ensures Valid() && samples == [] && fresh(rtts)
      ensures this.percentile == percentile && this.maxSamples == maxSamples
    {
      this.percentile, this.maxSamples := percentile, maxSamples;
      rtts := new int[maxSamples](_ => 0);
      sortBuffer, sampleCount, minRtt, maxInflight, didDrop, samples := [], 0, INT64_MAX, 0, false, [];
    }

    /** A compare-and-swap loop whose weak exchange may fail spuriously. */
    method LowerMin(rtt: int)
      modifies this`minRtt
      ensures minRtt == if rtt < old(minRtt) then rtt else old(minRtt)
    {
      var currentMin, spurious: nat := minRtt, *;
      while rtt < currentMin
        invariant currentMin == minRtt
        invariant minRtt == old(minRtt) || minRtt == rtt < old(minRtt)
        decreases currentMin - rtt, spurious
      {
        if spurious == 0 {
          minRtt, currentMin := rtt, rtt;
        } else {
          currentMin, spurious := minRtt, spurious - 1;
        }
      }
    }

    method RaiseMax(inflight: int)
      modifies this`maxInflight
      ensures maxInflight == if inflight > old(maxInflight) then inflight else old(maxInflight)
    {
      var currentMax, spurious: nat := maxInflight, *;
      while inflight > currentMax
        invariant currentMax == maxInflight
        invariant maxInflight == old(maxInflight) || maxInflight == inflight > old(maxInflight)
        decreases inflight - currentMax, spurious
      {
        if spurious == 0 {
          maxInflight, currentMax := inflight, inflight;
        } else {
          currentMax, spurious := maxInflight, spurious - 1;
        }
      }
    }

    method AddSample(rtt: int, inflight: int, drop: bool)
      requires Valid()
      modifies this, rtts
      ensures Valid() && samples == old(samples) + [Sample(rtt, inflight, drop)]
    {
      var index := sampleCount;
      sampleCount := sampleCount + 1;
      if index < maxSamples {
        rtts[index] := rtt;
      }
      LowerMin(rtt);
      RaiseMax(inflight);
      if drop {
        didDrop := true;
      }
      Extended(samples, Sample(rtt, inflight, drop));
      samples := samples + [Sample(rtt, inflight, drop)];
    }

    /** Copies the filled part of the array into the sort buffer. */
    method FillSortBuffer()
      requires Valid()
      modifies this`sortBuffer
      ensures Valid() && sortBuffer == Usable(samples, maxSamples)
    {
      hide LeastRtt, MostInflight, AnyDrop, SumRtt;
      var usable := if sampleCount < maxSamples then sampleCount else maxSamples;
      sortBuffer := [];
      for i := 0 to usable
        invariant |sortBuffer| == i && forall j | 0 <= j < i :: sortBuffer[j] == samples[j].rtt
      {
        sortBuffer := sortBuffer + [rtts[i]];
      }
      assert sortBuffer == Usable(samples, maxSamples);
    }

    /** Sorts a copy of the samples kept and picks the one at the rank. */
    method TrackedRttNs() returns (rtt: int)
      requires Valid() && Reportable(AtPercentile(percentile, maxSamples), samples)
      modifies this`sortBuffer
      ensures Valid()
      ensures rtt == TrackedRtt(AtPercentile(percentile, maxSamples), samples)
    {
      hide Sort, Sorted, WantedRank, LeastRtt, MostInflight, AnyDrop, SumRtt;
      if sampleCount == 0 {
        return 0;
      }
      FillSortBuffer();
      var usable := |sortBuffer|;
      ghost var kept := sortBuffer;
      SortSorts(sortBuffer);
      sortBuffer := Sort(sortBuffer);
      var zeroBased := WantedRank(percentile, usable);
      var low := if zeroBased < |sortBuffer| - 1 then zeroBased else |sortBuffer| - 1;
      var clamped := if low > 0 then low else 0;
      assert clamped == RankOf(percentile, usable);
      assert sortBuffer[clamped] == Percentile(percentile, kept);
      return sortBuffer[clamped];
    }

    /** The array is left as it is. */
    method Reset()
      requires Valid()
      modifies this
      ensures Valid() && samples == []
    {
      sampleCount, minRtt, maxInflight, didDrop, samples := 0, INT64_MAX, 0, false, [];
    }
  }

  /** Either kind of window, behind the interface `WindowedLimit` uses. */
  datatype SampleWindow =
    | OfMean(average: AverageSampleWindow)
    | OfPercentile(percentile: PercentileSampleWindow)
  {
    function Repr(): set<object> {
      match this
      case OfMean(w) => {w}
      case OfPercentile(w) => {w, w.rtts}
    }

    function Kind(): Kind {
      match this
      case OfMean(_) => Mean
      case OfPercentile(w) => AtPercentile(w.percentile, w.maxSamples)
    }

    ghost predicate Valid()
      reads Repr()
    {
      match this
      case OfMean(w) => w.Valid()
      case OfPercentile(w) => w.Valid()
    }

    ghost function Samples(): seq<Sample>
      reads Repr()
    {
      match this
      case OfMean(w) => w.samples
      case OfPercentile(w) => w.samples
    }

    function CandidateRttNs(): (rtt: int)
      requires Valid()
      reads Repr()
      ensures rtt == LeastRtt(Samples())
    {
      match this
      case OfMean(w) => w.minRtt
      case OfPercentile(w) => w.minRtt
    }

    function MaxInflight(): (inflight: int)
      requires Valid()
      reads Repr()
      ensures inflight == MostInflight(Samples())
    {
      match this
      case OfMean(w) => w.maxInflight
      case OfPercentile(w) => w.maxInflight
    }

    function SampleCount(): (count: nat)
      requires Valid()
      reads Repr()
      ensures count == |Samples()|
    {
      match this
      case OfMean(w) => w.sampleCount
      case OfPercentile(w) => w.sampleCount
    }

    function DidDrop(): (drop: bool)
      requires Valid()
      reads Repr()
      ensures drop <==> AnyDrop(Samples())
    {
      match this
      case OfMean(w) => w.didDrop
      case OfPercentile(w) => w.didDrop
    }

    method AddSample(rtt: int, inflight: int, drop: bool)
      requires Valid()
      modifies Repr()
      ensures Valid() && Samples() == old(Samples()) + [Sample(rtt, inflight, drop)]
    {
      match this {
        case OfMean(w) => w.AddSample(rtt, inflight, drop);
        case OfPercentile(w) => w.AddSample(rtt, inflight, drop);
      }
    }

    method TrackedRttNs() returns (rtt: int)
      requires Valid() && Reportable(Kind(), Samples())
      modifies Repr()
      ensures Valid() && Samples() == old(Samples())
      ensures rtt == TrackedRtt(Kind(), Samples())
    {
      match this {
        case OfMean(w) => rtt := w.TrackedRttNs();
        case OfPercentile(w) => rtt := w.TrackedRttNs();
      }
    }

    method Reset()
      requires Valid()
      modifies Repr()
      ensures Valid() && Samples() == []
    {
      match this {
        case OfMean(w) => w.Reset();
        case OfPercentile(w) => w.Reset();
      }
    }
  }

  /** How the aggregates change when one sample joins. */
  lemma Extended(s: seq<Sample>, x: Sample)
    ensures SumRtt(s + [x]) == SumRtt(s) + x.rtt
    ensures LeastRtt(s + [x]) == if x.rtt < LeastRtt(s) then x.rtt else LeastRtt(s)
    ensures MostInflight(s + [x]) == if x.inflight > MostInflight(s) then x.inflight else MostInflight(s)
    ensures AnyDrop(s + [x]) <==> AnyDrop(s) || x.drop
  {
    var t := s + [x];
    assert t[..|t| - 1] == s;
    assert t[|s|] == x;
    assert forall i | 0 <= i < |s| :: t[i] == s[i];
  }

  // ---------- What the reported values mean ----------

  /** The least round trip is a lower bound, and one of the samples' unless none is below the
      sentinel. */
  lemma {:induction false} LeastRttIsLeast(s: seq<Sample>)
    ensures forall x <- s :: LeastRtt(s) <= x.rtt
    ensures LeastRtt(s) == INT64_MAX || exists x <- s :: x.rtt == LeastRtt(s)
    ensures LeastRtt(s) <= INT64_MAX
  {
    if s != [] {
      var rest, last := s[..|s| - 1], s[|s| - 1];
      LeastRttIsLeast(rest);
      assert s == rest + [last];
      assert last in s;
    }
  }

  lemma {:induction false} MostInflightIsMost(s: seq<Sample>)
    ensures forall x <- s :: x.inflight <= MostInflight(s)
    ensures MostInflight(s) == 0 || exists x <- s :: x.inflight == MostInflight(s)
    ensures 0 <= MostInflight(s)
  {
    if s != [] {
      var rest, last := s[..|s| - 1], s[|s| - 1];
      MostInflightIsMost(rest);
      assert s == rest + [last];
      assert last in s;
    }
  }

  /** Every sample took at least `low`. */
  predicate AllAtLeast(s: seq<Sample>, low: int) { forall i | 0 <= i < |s| :: low <= s[i].rtt }

  lemma {:induction false} SumAtLeast(s: seq<Sample>, low: int)
    requires AllAtLeast(s, low)
    ensures |s| * low <= SumRtt(s)
  {
    if s != [] {
      SumAtLeast(s[..|s| - 1], low);
      OneMore(|s| - 1, low);
    }
  }

  lemma OneMore(n: nat, x: int)
    ensures (n + 1) * x == n * x + x
  {
  }

  lemma QuotientAtLeast(x: int, n: int, low: int)
    requires n > 0 && low >= 0 && n * low <= x
    ensures low <= Quotient(x, n)
  {
    hide Quotient;
    Divided(x, n);
    assert 0 <= n * low;
    var q := x / n;
    assert n * (q + 1 - low) == n * q + n - n * low;
    PositiveFactor(n, q + 1 - low);
  }

  lemma Divided(x: int, n: int)
    requires n > 0
    ensures n * (x / n) <= x < n * (x / n) + n
    ensures x >= 0 ==> Quotient(x, n) == x / n
  {
  }

  lemma PositiveFactor(n: int, d: int)
    requires n > 0 && n * d > 0
    ensures d > 0
  {
    assert d <= 0 ==> n * d <= 0;
  }

  /** What a window reports is at least every lower bound of its samples. */
  lemma TrackedAtLeast(kind: Kind, s: seq<Sample>, low: int)
    requires kind.AtPercentile? ==> kind.maxSamples > 0
    requires s != [] && low >= 0 && AllAtLeast(s, low)
    ensures low <= TrackedRtt(kind, s)
  {
    match kind
    case Mean =>
      SumAtLeast(s, low);
      QuotientAtLeast(SumRtt(s), |s|, low);
    case AtPercentile(percentile, maxSamples) =>
      PercentileIsOne(percentile, Usable(s, maxSamples));
  }

  /** The sum is that of the round trips. */
  lemma {:induction false} SumRttIs(s: seq<Sample>)
    ensures SumRtt(s) == Counting.Sum(Rtts(s))
  {
    if s != [] {
      var rest, last := s[..|s| - 1], s[|s| - 1];
      SumRttIs(rest);
      assert Rtts(s) == Rtts(rest) + [last.rtt];
      Counting.SumAppend(Rtts(rest), last.rtt);
    }
  }

  /** r is the quotient of x and n with the fraction dropped. */
  predicate IsTruncatedQuotient(x: int, n: int, r: int) {
    && (0 <= x ==> n * r <= x < n * r + n)
    && (x <= 0 ==> n * r - n < x <= n * r)
  }

  lemma QuotientTruncates(x: int, n: int)
    requires 0 < n
    ensures IsTruncatedQuotient(x, n, Quotient(x, n))
  {
    if 0 <= x {
      Divided(x, n);
    } else {
      Divided(-x, n);
      NegatedFactor(n, (-x) / n);
    }
    Divided(0, n);
  }

  lemma NegatedFactor(n: int, q: int)
    ensures n * (-q) == -(n * q)
  {
  }

  /** The average window reports the mean of its samples' round trips, the fraction dropped. */
  lemma MeanIsTruncated(s: seq<Sample>)
    requires s != []
    ensures IsTruncatedQuotient(Counting.Sum(Rtts(s)), |s|, TrackedRtt(Mean, s))
  {
    hide IsTruncatedQuotient, Quotient;
    SumRttIs(s);
    QuotientTruncates(SumRtt(s), |s|);
  }

  lemma PercentileIsOne(percentile: real, usable: seq<int>)
    requires usable != []
    ensures exists i | 0 <= i < |usable| :: usable[i] == Percentile(percentile, usable)
  {
    hide Sort;
    SortSorts(usable);
    var r := Percentile(percentile, usable);
    assert r in multiset(Sort(usable));
    assert r in usable;
  }

  /** The percentile window reports the only value with at most k of the usable samples below it and
      more than k at most it, where k is the rank. */
  lemma PercentileIsOrderStatistic(percentile: real, maxSamples: nat, s: seq<Sample>, x: int)
    requires maxSamples > 0 && s != []
    ensures var usable := Usable(s, maxSamples);
      var k := RankOf(percentile, |usable|);
      x == TrackedRtt(AtPercentile(percentile, maxSamples), s) <==> Below(usable, x) <= k < AtMost(usable, x)
  {
    var usable := Usable(s, maxSamples);
    Rank(usable, RankOf(percentile, |usable|), x);
  }

  /** If nothing overflowed, the order in which the samples arrived does not matter. */
  lemma PercentileIgnoresOrder(percentile: real, maxSamples: nat, s: seq<Sample>, t: seq<Sample>)
    requires maxSamples > 0 && |s| <= maxSamples && multiset(Rtts(s)) == multiset(Rtts(t))
    ensures TrackedRtt(AtPercentile(percentile, maxSamples), s) == TrackedRtt(AtPercentile(percentile, maxSamples), t)
  {
    SameLength(Rtts(s), Rtts(t));
    SortIgnoresOrder(Rtts(s), Rtts(t));
    assert Usable(s, maxSamples) == Rtts(s) && Usable(t, maxSamples) == Rtts(t);
  }

  /** If something overflowed, only the samples that came first count. */
  lemma PercentileKeepsFirst(percentile: real, maxSamples: nat, s: seq<Sample>, late: seq<Sample>)
    requires 0 < maxSamples <= |s|
    ensures TrackedRtt(AtPercentile(percentile, maxSamples), s + late)
         == TrackedRtt(AtPercentile(percentile, maxSamples), s)
  {
    assert Usable(s + late, maxSamples) == Usable(s, maxSamples);
  }

  /** The rank is the nearest to the percentile's share of n samples, and the last for all of them. */
  lemma RankIsNearest(percentile: real, n: nat)
    requires 0.0 < percentile <= 1.0 && n > 0
    ensures var position, share := (RankOf(percentile, n) + 1) as real, n as real * percentile;
      && (share >= 0.5 ==> -0.5 < position - share <= 0.5)
      && (share < 0.5 ==> position == 1.0)
    ensures percentile == 1.0 ==> RankOf(percentile, n) == n - 1
  {
    var share := n as real * percentile;
    assert 0.0 < share <= n as real;
    assert WantedRank(percentile, n) == (share + 0.5).Floor - 1;
  }
}
