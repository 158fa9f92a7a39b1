/** The dequeue loop of RFC 8289, section 5.5, beside repeated consultations of the filter at one
    clock reading. The packet-size term of section 5.6 is left out, as in the filter. */
module CodelRfc {
  import opened Codel

  /** What a dequeue hands over: the undropped tail of the backlog, its head being the item served. */
  datatype Pass = Emptied | Served(rest: seq<real>, state: State)

  /** `dodequeue` of section 5.6 on the item at the head: the new first-above time and ok_to_drop. */
  function DoDequeue(c: Config, firstAbove: real, now: real, stamp: real): (real, bool) {
    var sojourn := now - stamp;
    if sojourn < c.target then (EPOCH, false)
    else if firstAbove == EPOCH then (now + c.interval, false)
    else if firstAbove <= now then (firstAbove, true)
    else (firstAbove, false)
  }

  /** `control_law` of section 5.6. */
  function RfcControlLaw(c: Config, t: real, count: nat): real
    requires Sound(c) && 1 <= count
  {
    RootPositive(c, count);
    t + c.interval / c.root(count)
  }

  lemma SameLaw(c: Config, t: real, count: nat)
    requires Sound(c) && 1 <= count
    ensures RfcControlLaw(c, t, count) == ControlLaw(c, t, count)
  {
  }

  /** The while loop of section 5.5, with the current item at the head of the backlog. */
  function DropLoop(c: Config, s: State, now: real, backlog: seq<real>): Pass
    requires Sound(c) && backlog != []
    decreases |backlog|
  {
    if !(s.dropNext <= now && s.dropping) then Served(backlog, s)
    else if |backlog| == 1 then Emptied
    else
      var count := s.count + 1;
      var (firstAbove, ok) := DoDequeue(c, s.firstAbove, now, backlog[1]);
      var t := s.(count := count, drops := s.drops + 1, firstAbove := firstAbove);
      if !ok then DropLoop(c, t.(dropping := false), now, backlog[1..])
      else DropLoop(c, t.(dropNext := RfcControlLaw(c, s.dropNext, count)), now, backlog[1..])
  }

  /** `deque` of section 5.5. */
  function RfcDequeue(c: Config, s: State, now: real, backlog: seq<real>): Pass
    requires Sound(c)
  {
    if backlog == [] then Emptied
    else
      var (firstAbove, ok) := DoDequeue(c, s.firstAbove, now, backlog[0]);
      var t := s.(firstAbove := firstAbove);
      if s.dropping then DropLoop(c, if ok then t else t.(dropping := false), now, backlog)
      else if !ok then Served(backlog, t)
      else if |backlog| == 1 then Emptied
      else
        var (firstAbove', ok') := DoDequeue(c, firstAbove, now, backlog[1]);
        var count := EntryCount(c, s, now);
        Served(backlog[1..], State(firstAbove', RfcControlLaw(c, now, count), count, count, true, s.drops + 1))
  }

  /** The filter asked about one item after another until it keeps one. */
  function AskUntilKept(c: Config, s: State, now: real, backlog: seq<real>): Pass
    requires Sound(c)
    decreases |backlog|
  {
    if backlog == [] then Emptied
    else
      var outcome := Decide(c, s, now, backlog[0]);
      if outcome.drop then AskUntilKept(c, outcome.state, now, backlog[1..])
      else Served(backlog, outcome.state)
  }

  lemma SameVerdict(c: Config, firstAbove: real, now: real, stamp: real)
    requires Sound(c)
    ensures DoDequeue(c, firstAbove, now, stamp) == DropVerdict(c, firstAbove, Sojourn(now, stamp), now)
  {
  }

  /** The scheduled drop time the filter holds when the RFC's loop stops: one gap further if the
      loop dropped something and then left the dropping state, the same otherwise. */
  ghost predicate AgreeButForSchedule(c: Config, filter: State, rfc: State, dropped: bool)
    requires Sound(c) && (dropped ==> 1 <= rfc.count)
  {
    filter == if dropped && !rfc.dropping then rfc.(dropNext := RfcControlLaw(c, rfc.dropNext, rfc.count)) else rfc
  }

  /** From the dropping state, the filter serves the same item as the loop. */
  lemma {:induction false} LoopAgrees(c: Config, s: State, now: real, backlog: seq<real>)
    requires Sound(c) && s.dropping && backlog != []
    ensures var (firstAbove, ok) := DoDequeue(c, s.firstAbove, now, backlog[0]);
      var rfc := DropLoop(c, s.(firstAbove := firstAbove, dropping := ok), now, backlog);
      var asked := AskUntilKept(c, s, now, backlog);
      && (rfc.Emptied? <==> asked.Emptied?)
      && (rfc.Served? ==>
            && rfc.rest == asked.rest && |rfc.rest| <= |backlog|
            && (rfc.rest == backlog ==> rfc.state == s.(firstAbove := firstAbove, dropping := ok))
            && (rfc.rest != backlog ==> 1 <= rfc.state.count)
            && AgreeButForSchedule(c, asked.state, rfc.state, rfc.rest != backlog))
    decreases |backlog|
  {
    SameLaw(c, s.dropNext, s.count + 1);
    hide ControlLaw, RfcControlLaw;
    SameVerdict(c, s.firstAbove, now, backlog[0]);
    var (firstAbove, ok) := DoDequeue(c, s.firstAbove, now, backlog[0]);
    if ok && s.dropNext <= now {
      var next := Decide(c, s, now, backlog[0]).state;
      var rest := backlog[1..];
      if rest != [] {
        LoopAgrees(c, next, now, rest);
        SameVerdict(c, firstAbove, now, rest[0]);
        var (firstAbove', ok') := DoDequeue(c, firstAbove, now, rest[0]);
        if !ok' {
          assert AskUntilKept(c, next, now, rest)
              == Served(rest, next.(firstAbove := firstAbove', dropping := false));
        }
      }
    }
  }

  /** Asking about successive items at one clock reading drops exactly the items that one pass of
      the RFC's dequeue drops, and serves the same one. From the dropping state the two end states
      differ only in the scheduled drop time, and only if the pass dropped and then left that state.
      From the quiet state they differ only in the dropping flag, and only if the pass entered the
      dropping state with a served item that is itself not to be dropped. */
  lemma RfcAgreement(c: Config, s: State, now: real, backlog: seq<real>)
    requires Sound(c)
    ensures var rfc, asked := RfcDequeue(c, s, now, backlog), AskUntilKept(c, s, now, backlog);
      && (rfc.Emptied? <==> asked.Emptied?)
      && (rfc.Served? ==>
            && rfc.rest == asked.rest && rfc.rest != []
            && (s.dropping ==>
                  && (rfc.rest != backlog ==> 1 <= rfc.state.count)
                  && AgreeButForSchedule(c, asked.state, rfc.state, rfc.rest != backlog))
            && (!s.dropping && rfc.rest == backlog ==> asked.state == rfc.state)
            && (!s.dropping && rfc.rest != backlog ==>
                  asked.state == rfc.state.(dropping := DoDequeue(c, s.firstAbove, now, rfc.rest[0]).1)))
  {
    hide Gap, EntryCount, RfcControlLaw;
    if backlog != [] {
      SameVerdict(c, s.firstAbove, now, backlog[0]);
      var (firstAbove, ok) := DoDequeue(c, s.firstAbove, now, backlog[0]);
      if s.dropping {
        LoopAgrees(c, s, now, backlog);
        ServedIsNonEmpty(c, s.(firstAbove := firstAbove, dropping := ok), now, backlog);
      } else if ok && 1 < |backlog| {
        SameVerdict(c, firstAbove, now, backlog[1]);
        EntryCountPositive(c, s, now);
        GapPositive(c, EntryCount(c, s, now));
        SameLaw(c, now, EntryCount(c, s, now));
        var entered := Decide(c, s, now, backlog[0]).state;
        assert now < entered.dropNext;
        assert !Decide(c, entered, now, backlog[1]).drop;
      }
    }
  }

  lemma EntryCountPositive(c: Config, s: State, now: real)
    ensures 1 <= EntryCount(c, s, now)
  {
  }

  lemma {:induction false} ServedIsNonEmpty(c: Config, s: State, now: real, backlog: seq<real>)
    requires Sound(c) && backlog != []
    ensures DropLoop(c, s, now, backlog).Served? ==> DropLoop(c, s, now, backlog).rest != []
    decreases |backlog|
  {
    hide RfcControlLaw;
    if s.dropNext <= now && s.dropping && 1 < |backlog| {
      var count := s.count + 1;
      var (firstAbove, ok) := DoDequeue(c, s.firstAbove, now, backlog[1]);
      var t := s.(count := count, drops := s.drops + 1, firstAbove := firstAbove);
      ServedIsNonEmpty(c, if ok then t.(dropNext := RfcControlLaw(c, s.dropNext, count)) else t.(dropping := false),
                       now, backlog[1..]);
    }
  }
}
