/** The windowed limit (src/windowed_limit.cc) with calls one at a time: its two slots and active
    index stand for one list of samples since the last boundary. */
module Windowed {
  import opened SampleWindows

  datatype Config = Config(minWindow: int, maxWindow: int, windowSize: int, threshold: int, kind: Kind)

  /** What the builder checks; an array of at least one sample for percentiles. */
  predicate Sound(c: Config) {
    && 0 < c.minWindow <= c.maxWindow && 1 <= c.windowSize && 0 <= c.threshold
    && (c.kind.AtPercentile? ==> 0 < c.kind.maxSamples)
  }

  datatype Call = Call(start: int, rtt: int, inflight: int, drop: bool)

  /** A sample handed on to the wrapped limit. */
  datatype Delivery = Delivery(start: int, rtt: int, inflight: int, drop: bool)

  /** The call's times, doubled and added as the code does, fit their machine integers. */
  predicate Fits(c: Config, call: Call) {
    2 * call.rtt <= INT64_MAX && call.start + call.rtt + c.maxWindow <= INT64_MAX
  }

  function SampleOf(call: Call): Sample { Sample(call.rtt, call.inflight, call.drop) }

  function End(call: Call): int { call.start + call.rtt }

  /** Twice the least round trip, clamped. */
  function WindowLength(c: Config, least: int): int {
    var twice := if least * 2 > c.minWindow then least * 2 else c.minWindow;
    if twice < c.maxWindow then twice else c.maxWindow
  }

  /** The next window is as long as twice the least round trip, kept between the window times. */
  lemma WindowLengthIs(c: Config, least: int)
    requires Sound(c)
    ensures c.minWindow <= WindowLength(c, least) <= c.maxWindow
    ensures var twice, length := least + least, WindowLength(c, least);
      && (c.minWindow <= twice <= c.maxWindow ==> length == twice)
      && (twice < c.minWindow ==> length == c.minWindow)
      && (c.maxWindow < twice ==> length == c.maxWindow)
  {
  }

  // ---------- One list of samples since the last boundary ----------

  datatype Window = Window(samples: seq<Sample>, due: int, delivered: seq<Delivery>)

  const FIRST := Window([], 0, [])

  /** The samples of a full window as the wrapped limit sees them; an underloaded one is not shown. */
  function Report(c: Config, start: int, s: seq<Sample>): seq<Delivery>
    requires Sound(c)
  {
    if |s| >= c.windowSize then [Delivery(start, TrackedRtt(c.kind, s), MostInflight(s), AnyDrop(s))] else []
  }

  /** The window after a call at whose end it was due. */
  function Closed(c: Config, w: Window, call: Call): Window
    requires Sound(c)
  {
    Window([], End(call) + WindowLength(c, LeastRtt(w.samples)),
           w.delivered + Report(c, call.start, w.samples))
  }

  function Observed(c: Config, w: Window, call: Call): Window
    requires Sound(c)
  {
    if call.rtt < c.threshold then w
    else
      var v := w.(samples := w.samples + [SampleOf(call)]);
      if End(call) <= w.due then v else Closed(c, v, call)
  }

  function Run(c: Config, calls: seq<Call>): Window
    requires Sound(c)
  {
    if calls == [] then FIRST else Observed(c, Run(c, calls[..|calls| - 1]), calls[|calls| - 1])
  }

  // ---------- The two-slot machine ----------

  class WindowedLimit {
    const config: Config
    const slots: seq<SampleWindow>
    var activeIndex: nat
    var nextUpdateTime: int
    var delivered: seq<Delivery>

    /** The slot that is not active is empty. */
    ghost predicate Valid()
      reads this, if |slots| == 2 then slots[0].Repr() + slots[1].Repr() else {}
    {
      && Sound(config) && |slots| == 2 && activeIndex < 2
      && slots[0].Repr() !! slots[1].Repr() && this !in slots[0].Repr() + slots[1].Repr()
      && slots[0].Valid() && slots[1].Valid()
      && slots[0].Kind() == config.kind == slots[1].Kind()
      && slots[1 - activeIndex].Samples() == []
    }

    function Repr(): set<object>
      requires |slots| == 2
    {
      slots[0].Repr() + slots[1].Repr()
    }

    ghost function View(): Window
      requires Valid()
      reads this, if |slots| == 2 then slots[0].Repr() + slots[1].Repr() else {}
    {
      Window(slots[activeIndex].Samples(), nextUpdateTime, delivered)
    }

    constructor (config: Config)
      requires Sound(config)
      ensures Valid() && this.config == config && View() == FIRST && fresh(Repr())
    {
      var first, second: SampleWindow;
      match config.kind {
        case Mean =>
          var a := new AverageSampleWindow();
          var b := new AverageSampleWindow();
          first, second := OfMean(a), OfMean(b);
        case AtPercentile(percentile, maxSamples) =>
          var a := new PercentileSampleWindow(percentile, maxSamples);
          var b := new PercentileSampleWindow(percentile, maxSamples);
          first, second := OfPercentile(a), OfPercentile(b);
      }
      this.config, slots, activeIndex, nextUpdateTime, delivered := config, [first, second], 0, 0, [];
    }

    /** The boundary: read the completed slot, flip, schedule, deliver, reset. */
    method CloseWindow(call: Call)
      requires Valid() && LeastRtt(View().samples) < INT64_MAX
      modifies this, Repr()
      ensures Valid()
      ensures View() == Closed(config, old(View()), call)
    {
      hide LeastRtt, MostInflight, AnyDrop, TrackedRtt;
      var completed := slots[activeIndex];
      var candidate := completed.CandidateRttNs();
      var tracked := completed.TrackedRttNs();
      var maxInflight := completed.MaxInflight();
      var count := completed.SampleCount();
      var drop := completed.DidDrop();
      activeIndex := 1 - activeIndex;
      var adaptive := if candidate == INT64_MAX then config.minWindow else WindowLength(config, candidate);
      nextUpdateTime := End(call) + adaptive;
      if candidate != INT64_MAX && count >= config.windowSize {
        delivered := delivered + [Delivery(call.start, tracked, maxInflight, drop)];
      }
      completed.Reset();
    }

    method OnSample(call: Call)
      requires Valid() && Fits(config, call)
      modifies this, Repr()
      ensures Valid() && View() == Observed(config, old(View()), call)
    {
      hide LeastRtt, MostInflight, AnyDrop, TrackedRtt, SumRtt, Closed;
      if call.rtt < config.threshold {
        return;
      }
      Extended(View().samples, SampleOf(call));
      slots[activeIndex].AddSample(call.rtt, call.inflight, call.drop);
      if End(call) <= nextUpdateTime {
        return;
      }
      CloseWindow(call);
    }
  }
}
