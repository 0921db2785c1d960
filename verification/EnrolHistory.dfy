/** What the enrolment limiter answers, read off the requests so far: one name and one address at a time. */
module EnrolHistory {
  import opened Common
  import opened EnrolLimiter
  import EnrolBurst

  function Fresh(start: real): State {
    State(map[], map[], [], start)
  }

  lemma {:induction false} RunAppend(s: State, events: seq<Event>, e: Event, prune: bool)
    ensures Run(s, events + [e], prune) == Step(Run(s, events, prune), e, prune).0
    decreases |events|
  {
    if events == [] {
      assert events + [e] == [e] && [e][1..] == [];
    } else {
      RunAppend(Step(s, events[0], prune).0, events[1..], e, prune);
      assert (events + [e])[1..] == events[1..] + [e];
    }
  }

  /** What the last of these events was answered. */
  function Answer(start: real, events: seq<Event>): Option<Outcome>
    requires events != []
  {
    Step(Run(Fresh(start), events[..|events| - 1], true), events[|events| - 1], true).1
  }

  // ------------------------------------------------------------------------- one name

  /** A request is forgotten after a week. */
  function Unexpired(w: Option<Waiting>, now: real): Option<Waiting> {
    if w.Some? && now - w.value.requestedAt > 604800.0 then None else w
  }

  /** What an event makes of the waiting request of a name, given what it was answered. */
  function NameAfter(w: Option<Waiting>, e: Event, name: string, answer: Option<Outcome>): Option<Waiting> {
    match e
    case Look(now) => Unexpired(w, now)
    case Remove(other, _) => if other == name then None else w
    case Enrol(other, app, ip, now) =>
      var had := Unexpired(w, now);
      if other != name then had
      else if had.Some? then
        Some(Waiting(if app == "" then had.value.app else app,
                     if had.value.requestedAt == 0.0 then Whole(now) else had.value.requestedAt,
                     if ip == "" then had.value.ip else ip, had.value.requests + 1))
      else if answer == Some(Recorded) then Some(Waiting(app, Whole(now), ip, 1))
      else None
  }

  function NameTale(start: real, events: seq<Event>, name: string): Option<Waiting> {
    if events == [] then None
    else
      NameAfter(NameTale(start, events[..|events| - 1], name), events[|events| - 1], name, Answer(start, events))
  }

  function Entry(s: State, name: string): Option<Waiting> {
    if name in s.pending then Some(s.pending[name]) else None
  }

  lemma StepTells(s: State, e: Event, name: string)
    ensures Entry(Step(s, e, true).0, name) == NameAfter(Entry(s, name), e, name, Step(s, e, true).1)
  {
  }

  /** Over every run the waiting list says of a name what the events come to: the first time it was asked
      for since it last waited, the newest identity and address given, and how often. */
  lemma {:induction false} WaitingListIsTrue(start: real, events: seq<Event>, name: string)
    ensures Entry(Run(Fresh(start), events, true), name) == NameTale(start, events, name)
    decreases |events|
  {
    if events != [] {
      var before, e := events[..|events| - 1], events[|events| - 1];
      WaitingListIsTrue(start, before, name);
      TaleMore(start, events, before, e, name);
      StepTells(Run(Fresh(start), before, true), e, name);
    }
  }

  lemma TaleMore(start: real, events: seq<Event>, before: seq<Event>, e: Event, name: string)
    requires events != [] && before == events[..|events| - 1] && e == events[|events| - 1]
    ensures var s := Run(Fresh(start), before, true);
            && Run(Fresh(start), events, true) == Step(s, e, true).0
            && NameTale(start, events, name) == NameAfter(NameTale(start, before, name), e, name, Step(s, e, true).1)
  {
    RunAppend(Fresh(start), before, e, true);
    assert before + [e] == events;
  }

  // ---------------------------------------------------------------------- one address

  /** The request has to be counted against the address: its name was new, and the list not full. */
  predicate Counted(e: Event, ip: string, answer: Option<Outcome>) {
    e.Enrol? && e.ip == ip && ip != "" && (answer == Some(Recorded) || answer == Some(TooMany))
  }

  function SpanAfter(w: Option<Span>, now: real): Span {
    if w.None? || now - w.value.started >= 60.0 then Span(now, 1) else Span(w.value.started, w.value.count + 1)
  }

  /** The span of an address: it begins with the first counted request a minute or more after the last
      span's first one. */
  function SpanTale(start: real, events: seq<Event>, ip: string): Option<Span> {
    if events == [] then None
    else
      var w, e := SpanTale(start, events[..|events| - 1], ip), events[|events| - 1];
      if Counted(e, ip, Answer(start, events)) then Some(SpanAfter(w, e.now)) else w
  }

  function RateOf(s: State, ip: string): Option<Span> {
    if ip in s.rate then Some(s.rate[ip]) else None
  }

  lemma StepSpans(s: State, e: Event, ip: string)
    ensures RateOf(Step(s, e, false).0, ip) ==
            if Counted(e, ip, Step(s, e, false).1) then Some(SpanAfter(RateOf(s, ip), e.now)) else RateOf(s, ip)
  {
  }

  lemma {:induction false} TimelyPrefix(s: State, before: seq<Event>, e: Event)
    requires Timely(s, before + [e])
    ensures Timely(s, before) && e.now >= Run(s, before, true).clock
    decreases |before|
  {
    if before == [] {
      assert (before + [e])[0] == e;
    } else {
      assert (before + [e])[0] == before[0] && (before + [e])[1..] == before[1..] + [e];
      var t := Step(s, before[0], true).0;
      TimelyIsAboutClock(s.(clock := before[0].now), t, before[1..] + [e]);
      TimelyPrefix(t, before[1..], e);
      TimelyIsAboutClock(t, s.(clock := before[0].now), before[1..]);
    }
  }

  /** A limiter that forgets no address answers the same, and its table is what the events come to. */
  lemma {:induction false} FullTableIsTrue(start: real, events: seq<Event>, ip: string)
    requires Timely(Fresh(start), events)
    ensures RateOf(Run(Fresh(start), events, false), ip) == SpanTale(start, events, ip)
    ensures Alike(Run(Fresh(start), events, true), Run(Fresh(start), events, false))
    decreases |events|
  {
    RunsAgree(Fresh(start), Fresh(start), events);
    if events != [] {
      var before, e := events[..|events| - 1], events[|events| - 1];
      assert before + [e] == events;
      TimelyPrefix(Fresh(start), before, e);
      FullTableIsTrue(start, before, ip);
      RunAppend(Fresh(start), before, e, false);
      StepSpans(Run(Fresh(start), before, false), e, ip);
      StepsAgree(Run(Fresh(start), before, true), Run(Fresh(start), before, false), e);
    }
  }

  // ------------------------------------------------------------------- what is answered

  /** The names whose request is not forgotten yet. */
  function StillWaiting(s: State, now: real): set<string> {
    set name | name in s.pending && now - s.pending[name].requestedAt <= 604800.0
  }

  /** What the limiter has to answer, given what waits under the name, how many names wait, and the span of
      the address. */
  function Due(had: Option<Waiting>, waiting: nat, ip: string, w: Option<Span>, now: real): Outcome {
    if had.Some? then Repeated(had.value.requests + 1)
    else if waiting >= 32 then Full
    else if ip != "" && w.Some? && now - w.value.started < 60.0 && w.value.count >= 10 then TooMany
    else Recorded
  }

  lemma PrunedKeys(s: State, now: real)
    ensures |PruneWaiting(s.pending, now)| == |StillWaiting(s, now)|
  {
    assert PruneWaiting(s.pending, now).Keys == StillWaiting(s, now);
  }

  lemma StepAnswers(s: State, e: Event)
    requires e.Enrol?
    ensures Step(s, e, false).1 ==
            Some(Due(Unexpired(Entry(s, e.name), e.now), |StillWaiting(s, e.now)|, e.ip, RateOf(s, e.ip), e.now))
  {
    PrunedKeys(s, e.now);
  }

  /** Over every run: who asks for a name that waits is told how often it was asked for; who asks for a new
      one is told "full" exactly when 32 names wait, "too many" exactly when there is room but ten or more
      requests were counted in the current span of its address, and gets it recorded otherwise. */
  lemma AnsweredExactly(start: real, events: seq<Event>, e: Event)
    requires e.Enrol? && Timely(Fresh(start), events + [e])
    ensures var s := Run(Fresh(start), events, true);
            && |StillWaiting(s, e.now)| <= 32
            && Answer(start, events + [e]) ==
                 Some(Due(Unexpired(NameTale(start, events, e.name), e.now), |StillWaiting(s, e.now)|, e.ip,
                          SpanTale(start, events, e.ip), e.now))
  {
    var s, full := Run(Fresh(start), events, true), Run(Fresh(start), events, false);
    assert (events + [e])[..|events|] == events;
    TimelyPrefix(Fresh(start), events, e);
    FullTableIsTrue(start, events, e.ip);
    WaitingListIsTrue(start, events, e.name);
    StepsAgree(s, full, e);
    StepAnswers(full, e);
    WaitingListCapped(Fresh(start), events, true);
    SubsetSize(StillWaiting(s, e.now), s.pending.Keys);
    assert |s.pending.Keys| == |s.pending|;
  }

  // --------------------------------------------------------------------- a full list

  /** n names asked for at one moment, from nowhere in particular. */
  function Rush(n: nat): (events: seq<Event>)
    ensures |events| == n
  {
    if n == 0 then [] else Rush(n - 1) + [Enrol(EnrolBurst.Name(n - 1), "", "", 0.0)]
  }

  lemma {:induction false} RushWaits(n: nat)
    requires n <= 32
    ensures Timely(Fresh(0.0), Rush(n))
    ensures var s := Run(Fresh(0.0), Rush(n), true);
            && s.clock == 0.0 && |s.pending| == n
            && (forall name | name in s.pending :: |name| < n && s.pending[name].requestedAt == 0.0)
  {
    if n > 0 {
      RushWaits(n - 1);
      var s := Run(Fresh(0.0), Rush(n - 1), true);
      var e := Enrol(EnrolBurst.Name(n - 1), "", "", 0.0);
      RunAppend(Fresh(0.0), Rush(n - 1), e, true);
      assert PruneWaiting(s.pending, 0.0) == s.pending;
      TimelyAppend(Fresh(0.0), Rush(n - 1), e);
    }
  }

  lemma {:induction false} TimelyAppend(s: State, before: seq<Event>, e: Event)
    requires Timely(s, before) && e.now >= Run(s, before, true).clock
    ensures Timely(s, before + [e])
    decreases |before|
  {
    if before != [] {
      assert (before + [e])[0] == before[0] && (before + [e])[1..] == before[1..] + [e];
      var t := Step(s, before[0], true).0;
      TimelyIsAboutClock(s.(clock := before[0].now), t, before[1..]);
      TimelyAppend(t, before[1..], e);
      TimelyIsAboutClock(t, s.(clock := before[0].now), before[1..] + [e]);
    } else {
      assert before + [e] == [e] && [e][1..] == [];
    }
  }

  /** And that happens: 32 names are recorded, whoever asks, and the next one finds the list full. */
  lemma FullReached(ip: string) returns (events: seq<Event>)
    ensures |events| == 32 && Timely(Fresh(0.0), events + [Enrol(EnrolBurst.Name(32), "", ip, 0.0)])
    ensures |Run(Fresh(0.0), events, true).pending| == 32
    ensures Answer(0.0, events + [Enrol(EnrolBurst.Name(32), "", ip, 0.0)]) == Some(Full)
  {
    var n := MAX_PENDING;
    events := Rush(n);
    RushWaits(n);
    var e := Enrol(EnrolBurst.Name(n), "", ip, 0.0);
    var s := Run(Fresh(0.0), events, true);
    TimelyAppend(Fresh(0.0), events, e);
    assert (events + [e])[..|events|] == events;
    assert PruneWaiting(s.pending, 0.0) == s.pending;
  }
}
