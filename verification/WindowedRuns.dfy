/** What every sequential history of samples leads to through the windowed limit. */
module WindowedRuns {
  import opened OrderStatistics
  import opened SampleWindows
  import opened Windowed
  import Counting
  import Gradient2

  // ---------- The windows of a history ----------

  /** A closed window: the call that closed it, and its samples, that call's among them. */
  datatype Boundary = Boundary(call: Call, samples: seq<Sample>)

  predicate Closes(c: Config, w: Window, call: Call) { c.threshold <= call.rtt && w.due < End(call) }

  function Boundaries(c: Config, calls: seq<Call>): seq<Boundary>
    requires Sound(c)
  {
    if calls == [] then []
    else
      var before, call := calls[..|calls| - 1], calls[|calls| - 1];
      if !Closes(c, Run(c, before), call) then Boundaries(c, before)
      else Boundaries(c, before) + [Boundary(call, Run(c, before).samples + [SampleOf(call)])]
  }

  /** The samples that are not dropped as noise. */
  function Accepted(c: Config, calls: seq<Call>): seq<Sample> {
    if calls == [] then []
    else
      var before, call := calls[..|calls| - 1], calls[|calls| - 1];
      if call.rtt < c.threshold then Accepted(c, before) else Accepted(c, before) + [SampleOf(call)]
  }

  function Pooled(bs: seq<Boundary>): seq<Sample> {
    if bs == [] then [] else Pooled(bs[..|bs| - 1]) + bs[|bs| - 1].samples
  }

  function Reports(c: Config, bs: seq<Boundary>): seq<Delivery>
    requires Sound(c)
  {
    if bs == [] then []
    else Reports(c, bs[..|bs| - 1]) + Report(c, bs[|bs| - 1].call.start, bs[|bs| - 1].samples)
  }

  lemma Appended(c: Config, bs: seq<Boundary>, b: Boundary)
    requires Sound(c)
    ensures Pooled(bs + [b]) == Pooled(bs) + b.samples
    ensures Reports(c, bs + [b]) == Reports(c, bs) + Report(c, b.call.start, b.samples)
  {
    assert (bs + [b])[..|bs|] == bs;
  }

  /** Every accepted sample is in exactly one window, in order: closed windows one after the other,
      then the open one. What is delivered is, window by window, the report of each closed one. */
  lemma {:induction false} EverySampleOnce(c: Config, calls: seq<Call>)
    requires Sound(c)
    ensures Pooled(Boundaries(c, calls)) + Run(c, calls).samples == Accepted(c, calls)
    ensures Run(c, calls).delivered == Reports(c, Boundaries(c, calls))
  {
    hide Report, LeastRtt, WindowLength, Pooled, Reports;
    if calls == [] {
      assert Pooled([]) == [] && Reports(c, []) == [] by { Nothing(c); }
    } else {
      var before, call := calls[..|calls| - 1], calls[|calls| - 1];
      EverySampleOnce(c, before);
      if Closes(c, Run(c, before), call) {
        Appended(c, Boundaries(c, before), Boundary(call, Run(c, before).samples + [SampleOf(call)]));
      }
    }
  }

  lemma Nothing(c: Config)
    requires Sound(c)
    ensures Pooled([]) == [] && Reports(c, []) == []
  {
  }

  /** What a delivery says of the window it closes: it starts with the closing call; its in-flight count
      is the greatest of the window, and at least zero; it reports a drop if any sample did; and its
      round trip is the mean, the fraction dropped, or the order statistic at the percentile's rank
      among the samples kept. */
  ghost predicate Describes(c: Config, b: Boundary, d: Delivery)
    requires Sound(c)
  {
    var s := b.samples;
    && s != [] && d.start == b.call.start
    && 0 <= d.inflight && (forall i | 0 <= i < |s| :: s[i].inflight <= d.inflight)
    && (d.inflight == 0 || exists i | 0 <= i < |s| :: s[i].inflight == d.inflight)
    && (d.drop <==> exists i | 0 <= i < |s| :: s[i].drop)
    && match c.kind
       case Mean => IsTruncatedQuotient(Counting.Sum(Rtts(s)), |s|, d.rtt)
       case AtPercentile(percentile, maxSamples) =>
         var usable := Usable(s, maxSamples);
         Below(usable, d.rtt) <= RankOf(percentile, |usable|) < AtMost(usable, d.rtt)
  }

  /** The windows with enough samples, in order. */
  function Full(c: Config, bs: seq<Boundary>): seq<Boundary> {
    if bs == [] then []
    else
      var before, last := Full(c, bs[..|bs| - 1]), bs[|bs| - 1];
      if |last.samples| < c.windowSize then before else before + [last]
  }

  lemma ReportDescribes(c: Config, b: Boundary)
    requires Sound(c) && c.windowSize <= |b.samples|
    ensures |Report(c, b.call.start, b.samples)| == 1
    ensures Describes(c, b, Report(c, b.call.start, b.samples)[0])
  {
    var s := b.samples;
    MostInflightIsMost(s);
    assert forall i | 0 <= i < |s| :: s[i] in s;
    RttDescribes(c.kind, s);
    hide MostInflight, TrackedRtt, IsTruncatedQuotient, Below, RankOf, Usable;
  }

  lemma RttDescribes(kind: Kind, s: seq<Sample>)
    requires s != [] && Reportable(kind, s)
    ensures kind.Mean? ==> IsTruncatedQuotient(Counting.Sum(Rtts(s)), |s|, TrackedRtt(kind, s))
    ensures kind.AtPercentile? ==>
      var usable := Usable(s, kind.maxSamples);
      && usable != []
      && Below(usable, TrackedRtt(kind, s)) <= RankOf(kind.percentile, |usable|) < AtMost(usable, TrackedRtt(kind, s))
  {
    hide IsTruncatedQuotient, Below, TrackedRtt, RankOf;
    if kind.Mean? {
      MeanIsTruncated(s);
    } else {
      PercentileIsOrderStatistic(kind.percentile, kind.maxSamples, s, TrackedRtt(kind, s));
    }
  }

  /** A list of deliveries that describes a list of windows, one each, in order. */
  ghost predicate DescribesAll(c: Config, bs: seq<Boundary>, ds: seq<Delivery>)
    requires Sound(c)
  {
    |ds| == |bs| && forall i | 0 <= i < |bs| :: Describes(c, bs[i], ds[i])
  }

  lemma {:induction false} ReportsDescribe(c: Config, bs: seq<Boundary>)
    requires Sound(c)
    ensures DescribesAll(c, Full(c, bs), Reports(c, bs))
  {
    hide Describes, TrackedRtt, MostInflight, AnyDrop;
    if bs != [] {
      var last := bs[|bs| - 1];
      ReportsDescribe(c, bs[..|bs| - 1]);
      if c.windowSize <= |last.samples| {
        ReportDescribes(c, last);
      }
    }
  }

  /** In every history exactly the closed windows with enough samples are delivered, in order, and
      each delivery describes its window. */
  lemma DeliveriesDescribeWindows(c: Config, calls: seq<Call>)
    requires Sound(c)
    ensures DescribesAll(c, Full(c, Boundaries(c, calls)), Run(c, calls).delivered)
  {
    hide DescribesAll, Run, Full, Reports, Boundaries;
    EverySampleOnce(c, calls);
    ReportsDescribe(c, Boundaries(c, calls));
  }

  /** A history through the two-slot machine delivers exactly what one list of samples since the
      last boundary would deliver: the reports of the closed windows, one after the other. */
  method Replay(c: Config, calls: seq<Call>) returns (reports: seq<Delivery>)
    requires Sound(c) && forall i | 0 <= i < |calls| :: Fits(c, calls[i])
    ensures reports == Run(c, calls).delivered
    ensures reports == Reports(c, Boundaries(c, calls))
    ensures DescribesAll(c, Full(c, Boundaries(c, calls)), reports)
  {
    var limit := new WindowedLimit(c);
    for i := 0 to |calls|
      invariant limit.Valid() && limit.config == c && fresh(limit) && fresh(limit.Repr())
      invariant limit.View() == Run(c, calls[..i])
    {
      limit.OnSample(calls[i]);
      assert calls[..i + 1][..i] == calls[..i];
    }
    assert calls[..|calls|] == calls;
    reports := limit.delivered;
    hide DescribesAll;
    EverySampleOnce(c, calls);
    DeliveriesDescribeWindows(c, calls);
  }

  /** When the next boundary is due: after the last boundary's end by the window length of its
      samples, which is at least the minimum and at most the maximum window time. */
  predicate DueAfter(c: Config, bs: seq<Boundary>, due: int) {
    if bs == [] then due == 0
    else
      var last := bs[|bs| - 1];
      && End(last.call) + c.minWindow <= due <= End(last.call) + c.maxWindow
      && due == End(last.call) + WindowLength(c, LeastRtt(last.samples))
  }

  lemma {:induction false} DueAfterBoundary(c: Config, calls: seq<Call>)
    requires Sound(c)
    ensures DueAfter(c, Boundaries(c, calls), Run(c, calls).due)
  {
    hide LeastRtt, Report, WindowLength;
    if calls != [] {
      var before, call := calls[..|calls| - 1], calls[|calls| - 1];
      if Closes(c, Run(c, before), call) {
        WindowLengthIs(c, LeastRtt(Run(c, before).samples + [SampleOf(call)]));
      } else {
        DueAfterBoundary(c, before);
      }
    }
  }

  /** Boundaries are more than the minimum window time apart. */
  lemma {:induction false} BoundariesApart(c: Config, calls: seq<Call>, i: nat, j: nat)
    requires Sound(c) && i < j < |Boundaries(c, calls)|
    ensures var bs := Boundaries(c, calls);
      End(bs[i].call) + (j - i) * c.minWindow < End(bs[j].call)
  {
    hide WindowLength, LeastRtt, Observed;
    var before, call := calls[..|calls| - 1], calls[|calls| - 1];
    var bs := Boundaries(c, before);
    if j < |bs| {
      BoundariesApart(c, before, i, j);
    } else {
      DueAfterBoundary(c, before);
      if i < j - 1 {
        BoundariesApart(c, before, i, j - 1);
        OneMore(j - 1 - i, c.minWindow);
      }
    }
  }

  // ---------- What is delivered ----------

  ghost predicate DeliveredAtLeast(delivered: seq<Delivery>, low: int) {
    forall i | 0 <= i < |delivered| :: low <= delivered[i].rtt
  }

  /** Every round trip delivered is at least the threshold. */
  lemma {:induction false} DeliversAtLeastThreshold(c: Config, calls: seq<Call>)
    requires Sound(c)
    ensures AllAtLeast(Run(c, calls).samples, c.threshold)
    ensures DeliveredAtLeast(Run(c, calls).delivered, c.threshold)
  {
    hide TrackedRtt, LeastRtt, MostInflight, AnyDrop, WindowLength;
    if calls != [] {
      var before, call := calls[..|calls| - 1], calls[|calls| - 1];
      DeliversAtLeastThreshold(c, before);
      var s := Run(c, before).samples + [SampleOf(call)];
      if Closes(c, Run(c, before), call) {
        TrackedAtLeast(c.kind, s, c.threshold);
      }
    }
  }

  function ToSample(d: Delivery): Gradient2.Sample { Gradient2.Sample(d.rtt, d.inflight) }

  function ToSamples(ds: seq<Delivery>): seq<Gradient2.Sample> {
    seq(|ds|, i requires 0 <= i < |ds| => ToSample(ds[i]))
  }

  function Capped(n: nat): nat { if n < Gradient2.WARMUP then n else Gradient2.WARMUP }

  /** With a positive threshold the gradient's zero-latency branch is never taken: each delivery
      enters its long-term average, which therefore has warmed up after ten deliveries. */
  lemma NoZeroLatency(c: Config, calls: seq<Call>, g: Gradient2.Config, initial: int)
    requires Sound(c) && 0 < c.threshold && Gradient2.Sound(g)
    ensures var delivered := Run(c, calls).delivered;
      Gradient2.Run(g, Gradient2.Initial(initial), ToSamples(delivered)).longRtt.count == Capped(|delivered|)
  {
    DeliversAtLeastThreshold(c, calls);
    CountsAll(g, Gradient2.Initial(initial), ToSamples(Run(c, calls).delivered));
  }

  lemma {:induction false} CountsAll(g: Gradient2.Config, m: Gradient2.Model, samples: seq<Gradient2.Sample>)
    requires Gradient2.Sound(g) && m.longRtt.count <= Gradient2.WARMUP
    requires forall i | 0 <= i < |samples| :: 0 < samples[i].rtt
    ensures Gradient2.Run(g, m, samples).longRtt.count == Capped(m.longRtt.count + |samples|)
    decreases |samples|
  {
    if samples != [] {
      var next := Gradient2.Updated(g, m, samples[0]);
      assert next.longRtt.count == Capped(m.longRtt.count + 1);
      CountsAll(g, next, samples[1..]);
    }
  }
}
