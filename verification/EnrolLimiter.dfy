/** The one table an outsider can write to: enrolment requests, capped, expiring and rate limited. */
module EnrolLimiter {
  import opened Common

  const MAX_PENDING := 32
  const PENDING_TTL := 604800.0
  const RATE_LIMIT := 10
  const RATE_WINDOW := 60.0
  const RATE_TABLE_SOFT_CAP := 256

  datatype Span = Span(started: real, count: nat)

  datatype Waiting = Waiting(app: string, requestedAt: real, ip: string, requests: nat)

  datatype Outcome = Recorded | Repeated(requests: nat) | Full | TooMany

  datatype Pass = Pass(ip: string, at: real)

  /** `passed` logs every new name that got past the limiter from a known address; `clock` is the
      time of the last call. */
  datatype State = State(pending: map<string, Waiting>, rate: map<string, Span>, passed: seq<Pass>, clock: real)

  datatype Event =
    | Enrol(name: string, app: string, ip: string, now: real)
    | Look(now: real)                   // an operator reads the waiting list
    | Remove(name: string, now: real)   // a token was issued to the name, or it was revoked

  function Whole(t: real): real {
    Truncate(t) as real
  }

  function PruneWaiting(pending: map<string, Waiting>, now: real): map<string, Waiting> {
    map name | name in pending && now - pending[name].requestedAt <= PENDING_TTL :: pending[name]
  }

  function PruneRate(rate: map<string, Span>, now: real): map<string, Span> {
    if |rate| > RATE_TABLE_SOFT_CAP
    then map ip | ip in rate && now - rate[ip].started < RATE_WINDOW :: rate[ip]
    else rate
  }

  /** One limiter decision on a table that is already pruned (or never is). */
  function RateStep(rate: map<string, Span>, ip: string, now: real): (map<string, Span>, bool) {
    if ip == "" then (rate, true)
    else
      var w := if ip in rate then rate[ip] else Span(now, 0);
      if now - w.started >= RATE_WINDOW then (rate[ip := Span(now, 1)], true)
      else if w.count >= RATE_LIMIT then (rate[ip := Span(w.started, w.count + 1)], false)
      else (rate[ip := Span(w.started, w.count + 1)], true)
  }

  /** `prune` distinguishes the real limiter from one that never forgets an address. */
  function LimitRate(rate: map<string, Span>, ip: string, now: real, prune: bool): (map<string, Span>, bool) {
    RateStep(if prune && ip != "" then PruneRate(rate, now) else rate, ip, now)
  }

  function EnrolName(s: State, name: string, app: string, ip: string, now: real, prune: bool): (State, Outcome) {
    var pending := PruneWaiting(s.pending, now);
    var t := s.(pending := pending, clock := now);
    if name in pending then
      var previous := pending[name];
      var entry := Waiting(if app != "" then app else previous.app,
                           if previous.requestedAt != 0.0 then previous.requestedAt else Whole(now),
                           if ip != "" then ip else previous.ip, previous.requests + 1);
      (t.(pending := pending[name := entry]), Repeated(entry.requests))
    else if |pending| >= MAX_PENDING then (t, Full)
    else
      var (rate, passes) := LimitRate(s.rate, ip, now, prune);
      if !passes then (t.(rate := rate), TooMany)
      else
        (t.(rate := rate, pending := pending[name := Waiting(app, Whole(now), ip, 1)],
            passed := if ip == "" then s.passed else s.passed + [Pass(ip, now)]), Recorded)
  }

  function Step(s: State, e: Event, prune: bool): (State, Option<Outcome>) {
    match e
    case Enrol(name, app, ip, now) =>
      var (t, outcome) := EnrolName(s, name, app, ip, now, prune);
      (t, Some(outcome))
    case Look(now) => (s.(pending := PruneWaiting(s.pending, now), clock := now), None)
    case Remove(name, now) => (s.(pending := s.pending - {name}, clock := now), None)
  }

  /** The clock never runs backwards. */
  predicate Timely(s: State, events: seq<Event>)
    decreases |events|
  {
    events == [] || (events[0].now >= s.clock && Timely(s.(clock := events[0].now), events[1..]))
  }

  function Run(s: State, events: seq<Event>, prune: bool): State
    decreases |events|
  {
    if events == [] then s else Run(Step(s, events[0], prune).0, events[1..], prune)
  }

  function Outcomes(s: State, events: seq<Event>, prune: bool): seq<Option<Outcome>>
    decreases |events|
  {
    if events == [] then []
    else [Step(s, events[0], prune).1] + Outcomes(Step(s, events[0], prune).0, events[1..], prune)
  }

  // ----------------------------------------------------- forgetting changes no decision

  /** The pruned table lacks only spans that are over. */
  ghost predicate ForgotOnlyOver(pruned: map<string, Span>, full: map<string, Span>, now: real) {
    && (forall ip | ip in pruned :: ip in full && pruned[ip] == full[ip])
    && (forall ip | ip in full && ip !in pruned :: now - full[ip].started >= RATE_WINDOW)
  }

  ghost predicate Alike(a: State, b: State) {
    a.pending == b.pending && a.passed == b.passed && a.clock == b.clock && ForgotOnlyOver(a.rate, b.rate, a.clock)
  }

  lemma RateStepsAgree(pruned: map<string, Span>, full: map<string, Span>, ip: string, now: real)
    requires ForgotOnlyOver(pruned, full, now)
    ensures RateStep(pruned, ip, now).1 == RateStep(full, ip, now).1
    ensures ForgotOnlyOver(RateStep(pruned, ip, now).0, RateStep(full, ip, now).0, now)
  {
  }

  lemma StillOver(pruned: map<string, Span>, full: map<string, Span>, before: real, now: real)
    requires ForgotOnlyOver(pruned, full, before) && before <= now
    ensures ForgotOnlyOver(pruned, full, now)
    ensures ForgotOnlyOver(PruneRate(pruned, now), full, now)
  {
  }

  lemma LimitsAgree(pruned: map<string, Span>, full: map<string, Span>, ip: string, before: real, now: real)
    requires ForgotOnlyOver(pruned, full, before) && before <= now
    ensures LimitRate(pruned, ip, now, true).1 == LimitRate(full, ip, now, false).1
    ensures ForgotOnlyOver(LimitRate(pruned, ip, now, true).0, LimitRate(full, ip, now, false).0, now)
  {
    StillOver(pruned, full, before, now);
    RateStepsAgree(if ip != "" then PruneRate(pruned, now) else pruned, full, ip, now);
  }

  lemma StepsAgree(a: State, b: State, e: Event)
    requires Alike(a, b) && e.now >= a.clock
    ensures Step(a, e, true).1 == Step(b, e, false).1
    ensures Alike(Step(a, e, true).0, Step(b, e, false).0)
  {
    StillOver(a.rate, b.rate, a.clock, e.now);
    if e.Enrol? {
      LimitsAgree(a.rate, b.rate, e.ip, a.clock, e.now);
      EnrolsAgree(a, b, e.name, e.app, e.ip, e.now);
    }
  }

  lemma EnrolsAgree(a: State, b: State, name: string, app: string, ip: string, now: real)
    requires a.pending == b.pending && a.passed == b.passed && ForgotOnlyOver(a.rate, b.rate, now)
    requires LimitRate(a.rate, ip, now, true).1 == LimitRate(b.rate, ip, now, false).1
    requires ForgotOnlyOver(LimitRate(a.rate, ip, now, true).0, LimitRate(b.rate, ip, now, false).0, now)
    ensures EnrolName(a, name, app, ip, now, true).1 == EnrolName(b, name, app, ip, now, false).1
    ensures Alike(EnrolName(a, name, app, ip, now, true).0, EnrolName(b, name, app, ip, now, false).0)
  {
  }

  lemma {:induction false} RunsAgree(a: State, b: State, events: seq<Event>)
    requires Alike(a, b) && Timely(a, events)
    ensures Outcomes(a, events, true) == Outcomes(b, events, false)
    ensures Alike(Run(a, events, true), Run(b, events, false))
    decreases |events|
  {
    if events != [] {
      var e := events[0];
      StepsAgree(a, b, e);
      TimelyIsAboutClock(a.(clock := e.now), Step(a, e, true).0, events[1..]);
      RunsAgree(Step(a, e, true).0, Step(b, e, false).0, events[1..]);
    }
  }

  lemma {:induction false} TimelyIsAboutClock(a: State, b: State, events: seq<Event>)
    requires a.clock == b.clock && Timely(a, events)
    ensures Timely(b, events)
    decreases |events|
  {
    if events != [] {
      TimelyIsAboutClock(a.(clock := events[0].now), b.(clock := events[0].now), events[1..]);
    }
  }

  /** Bounding the limiter's own table never changes what anybody is told. */
  lemma PruningChangesNothing(s: State, events: seq<Event>)
    requires Timely(s, events)
    ensures Outcomes(s, events, true) == Outcomes(s, events, false)
  {
    RunsAgree(s, s, events);
  }

  // ------------------------------------------------------------------- what it bounds

  function CountFrom(log: seq<Pass>, n: nat, ip: string, from: real): nat
    requires n <= |log|
  {
    if n == 0 then 0
    else CountFrom(log, n - 1, ip, from) + if log[n - 1].ip == ip && log[n - 1].at >= from then 1 else 0
  }

  /** How many new names `ip` got past the limiter at or after `from` but before `to`. */
  function Count(log: seq<Pass>, n: nat, ip: string, from: real, to: real): nat
    requires n <= |log|
  {
    if n == 0 then 0
    else Count(log, n - 1, ip, from, to) + if log[n - 1].ip == ip && from <= log[n - 1].at < to then 1 else 0
  }

  function Passes(s: State, ip: string, from: real, to: real): nat {
    Count(s.passed, |s.passed|, ip, from, to)
  }

  lemma {:induction false} CountSplits(log: seq<Pass>, n: nat, ip: string, from: real, mid: real, to: real)
    requires n <= |log|
    ensures Count(log, n, ip, from, to) <= CountFrom(log, n, ip, from)
    ensures from <= mid ==> CountFrom(log, n, ip, from) == Count(log, n, ip, from, mid) + CountFrom(log, n, ip, mid)
    ensures from <= mid ==> CountFrom(log, n, ip, mid) <= CountFrom(log, n, ip, from)
  {
    if n > 0 {
      CountSplits(log, n - 1, ip, from, mid, to);
    }
  }

  lemma {:induction false} CountPrefix(log: seq<Pass>, p: Pass, n: nat, ip: string, from: real, to: real)
    requires n <= |log|
    ensures CountFrom(log + [p], n, ip, from) == CountFrom(log, n, ip, from)
    ensures Count(log + [p], n, ip, from, to) == Count(log, n, ip, from, to)
  {
    if n > 0 {
      CountPrefix(log, p, n - 1, ip, from, to);
    }
  }

  lemma CountAppend(log: seq<Pass>, p: Pass, ip: string, from: real, to: real)
    ensures CountFrom(log + [p], |log| + 1, ip, from) ==
            CountFrom(log, |log|, ip, from) + if p.ip == ip && p.at >= from then 1 else 0
    ensures Count(log + [p], |log| + 1, ip, from, to) ==
            Count(log, |log|, ip, from, to) + if p.ip == ip && from <= p.at < to then 1 else 0
  {
    CountPrefix(log, p, |log|, ip, from, to);
  }

  lemma {:induction false} NoneFrom(log: seq<Pass>, n: nat, ip: string, from: real)
    requires n <= |log| && forall i | 0 <= i < n :: log[i].ip == ip ==> log[i].at < from
    ensures CountFrom(log, n, ip, from) == 0
  {
    if n > 0 {
      NoneFrom(log, n - 1, ip, from);
    }
  }

  lemma {:induction false} NoneAtAll(log: seq<Pass>, n: nat, ip: string, from: real, to: real)
    requires n <= |log| && forall i | 0 <= i < n :: log[i].ip != ip
    ensures Count(log, n, ip, from, to) == 0
  {
    if n > 0 {
      NoneAtAll(log, n - 1, ip, from, to);
    }
  }

  /** The current span begins with a pass and holds at most ten; any shorter stretch in front of it
      misses the pass that began the previous span, so it holds at most nine. */
  ghost predicate SpanBounds(log: seq<Pass>, ip: string, w: Span, clock: real) {
    && w.started <= clock
    && (forall i | 0 <= i < |log| && log[i].ip == ip :: log[i].at < w.started + RATE_WINDOW)
    && CountFrom(log, |log|, ip, w.started) <= w.count
    && CountFrom(log, |log|, ip, w.started) <= RATE_LIMIT
    && (forall t: real | t > w.started :: Count(log, |log|, ip, w.started, t) >= 1)
    && (forall t: real | t > w.started - RATE_WINDOW :: Count(log, |log|, ip, t, w.started) < RATE_LIMIT)
  }

  /** The passes in the window's length that begins at t. */
  function InWindow(log: seq<Pass>, ip: string, t: real): nat {
    Count(log, |log|, ip, t, t + RATE_WINDOW)
  }

  ghost predicate NeverTwenty(log: seq<Pass>, ip: string) {
    forall t: real :: InWindow(log, ip, t) < 2 * RATE_LIMIT
  }

  ghost predicate Bounded(s: State, ip: string) {
    && (ip !in s.rate ==> forall i | 0 <= i < |s.passed| :: s.passed[i].ip != ip)
    && (ip in s.rate ==> SpanBounds(s.passed, ip, s.rate[ip], s.clock))
    && NeverTwenty(s.passed, ip)
  }

  lemma NewSpan(log: seq<Pass>, ip: string, w: Span, clock: real, now: real)
    requires SpanBounds(log, ip, w, clock) && NeverTwenty(log, ip)
    requires now >= clock && now - w.started >= RATE_WINDOW
    ensures SpanBounds(log + [Pass(ip, now)], ip, Span(now, 1), now)
    ensures NeverTwenty(log + [Pass(ip, now)], ip)
  {
    var more := log + [Pass(ip, now)];
    NoneFrom(log, |log|, ip, now);
    CountAppend(log, Pass(ip, now), ip, now, now);
    forall t: real | t > now
      ensures Count(more, |more|, ip, now, t) >= 1
    {
      CountAppend(log, Pass(ip, now), ip, now, t);
    }
    forall t: real | t > now - RATE_WINDOW
      ensures Count(more, |more|, ip, t, now) < RATE_LIMIT
    {
      CountAppend(log, Pass(ip, now), ip, t, now);
      CountSplits(log, |log|, ip, t, t, now);
      CountSplits(log, |log|, ip, w.started, t, now);
    }
    forall t: real
      ensures InWindow(more, ip, t) < 2 * RATE_LIMIT
    {
      assert InWindow(log, ip, t) < 2 * RATE_LIMIT;
      CountAppend(log, Pass(ip, now), ip, t, t + RATE_WINDOW);
      if t <= now < t + RATE_WINDOW {
        CountSplits(log, |log|, ip, t, t, t + RATE_WINDOW);
        CountSplits(log, |log|, ip, w.started, t, now);
      }
    }
  }

  lemma SameSpan(log: seq<Pass>, ip: string, w: Span, clock: real, now: real)
    requires SpanBounds(log, ip, w, clock) && NeverTwenty(log, ip)
    requires now >= clock && now - w.started < RATE_WINDOW && w.count < RATE_LIMIT
    ensures SpanBounds(log + [Pass(ip, now)], ip, Span(w.started, w.count + 1), now)
    ensures NeverTwenty(log + [Pass(ip, now)], ip)
  {
    var more := log + [Pass(ip, now)];
    CountAppend(log, Pass(ip, now), ip, w.started, now);
    forall t: real | t > w.started
      ensures Count(more, |more|, ip, w.started, t) >= 1
    {
      CountAppend(log, Pass(ip, now), ip, w.started, t);
    }
    forall t: real | t > w.started - RATE_WINDOW
      ensures Count(more, |more|, ip, t, w.started) < RATE_LIMIT
    {
      CountAppend(log, Pass(ip, now), ip, t, w.started);
    }
    forall t: real
      ensures InWindow(more, ip, t) < 2 * RATE_LIMIT
    {
      assert InWindow(log, ip, t) < 2 * RATE_LIMIT;
      CountAppend(log, Pass(ip, now), ip, t, t + RATE_WINDOW);
      if t <= now < t + RATE_WINDOW {
        CountSplits(log, |log|, ip, t, w.started, t + RATE_WINDOW);
        CountSplits(log, |log|, ip, w.started, t, now);
      }
    }
  }

  lemma FirstSpan(log: seq<Pass>, ip: string, now: real)
    requires forall i | 0 <= i < |log| :: log[i].ip != ip
    ensures SpanBounds(log + [Pass(ip, now)], ip, Span(now, 1), now)
    ensures NeverTwenty(log + [Pass(ip, now)], ip)
  {
    var more := log + [Pass(ip, now)];
    NoneFrom(log, |log|, ip, now);
    CountAppend(log, Pass(ip, now), ip, now, now);
    forall t: real, to: real
      ensures Count(more, |more|, ip, t, to) == if t <= now < to then 1 else 0
    {
      NoneAtAll(log, |log|, ip, t, to);
      CountAppend(log, Pass(ip, now), ip, t, to);
    }
    assert forall t: real :: InWindow(more, ip, t) <= 1;
  }

  lemma OtherAddress(s: State, t: State, ip: string)
    requires Bounded(s, ip) && t.clock >= s.clock
    requires ip in s.rate <==> ip in t.rate
    requires ip in s.rate ==>
               t.rate[ip].started == s.rate[ip].started && t.rate[ip].count >= s.rate[ip].count
    requires t.passed == s.passed || exists p: Pass :: p.ip != ip && t.passed == s.passed + [p]
    ensures Bounded(t, ip)
  {
    if t.passed != s.passed {
      var p: Pass :| p.ip != ip && t.passed == s.passed + [p];
      forall from: real, to: real
        ensures Count(t.passed, |t.passed|, ip, from, to) == Count(s.passed, |s.passed|, ip, from, to)
      {
        CountAppend(s.passed, p, ip, from, to);
      }
      forall from: real
        ensures CountFrom(t.passed, |t.passed|, ip, from) == CountFrom(s.passed, |s.passed|, ip, from)
      {
        CountAppend(s.passed, p, ip, from, from);
      }
      assert forall from: real :: InWindow(t.passed, ip, from) == InWindow(s.passed, ip, from);
    }
  }

  lemma StepKeepsBounds(s: State, e: Event, ip: string)
    requires Bounded(s, ip) && e.now >= s.clock && ip != ""
    ensures Bounded(Step(s, e, false).0, ip)
  {
    var t := Step(s, e, false).0;
    if e.Enrol? && e.ip == ip && t.passed != s.passed {
      if ip !in s.rate {
        FirstSpan(s.passed, ip, e.now);
      } else if e.now - s.rate[ip].started >= RATE_WINDOW {
        NewSpan(s.passed, ip, s.rate[ip], s.clock, e.now);
      } else {
        SameSpan(s.passed, ip, s.rate[ip], s.clock, e.now);
      }
    } else {
      if t.passed != s.passed {
        assert t.passed == s.passed + [Pass(e.ip, e.now)] && Pass(e.ip, e.now).ip != ip;
      }
      OtherAddress(s, t, ip);
    }
  }

  lemma {:induction false} RunKeepsBounds(s: State, events: seq<Event>, ip: string)
    requires Bounded(s, ip) && Timely(s, events) && ip != ""
    ensures Bounded(Run(s, events, false), ip)
    decreases |events|
  {
    if events != [] {
      StepKeepsBounds(s, events[0], ip);
      TimelyIsAboutClock(s.(clock := events[0].now), Step(s, events[0], false).0, events[1..]);
      RunKeepsBounds(Step(s, events[0], false).0, events[1..], ip);
    }
  }

  /** From an empty table on, in any run of the real limiter: an address gets at most nineteen new
      names into any interval that is not longer than a window. */
  lemma AtMostNineteenPerWindow(start: real, events: seq<Event>, ip: string, from: real, to: real)
    requires ip != "" && to <= from + RATE_WINDOW
    requires Timely(State(map[], map[], [], start), events)
    ensures Passes(Run(State(map[], map[], [], start), events, true), ip, from, to) < 2 * RATE_LIMIT
  {
    var s := State(map[], map[], [], start);
    RunKeepsBounds(s, events, ip);
    RunsAgree(s, s, events);
    var log := Run(s, events, true).passed;
    assert InWindow(log, ip, from) < 2 * RATE_LIMIT;
    ShorterInterval(log, |log|, ip, from, to, from + RATE_WINDOW);
  }

  lemma {:induction false} ShorterInterval(log: seq<Pass>, n: nat, ip: string, from: real, to: real, later: real)
    requires n <= |log| && to <= later
    ensures Count(log, n, ip, from, to) <= Count(log, n, ip, from, later)
  {
    if n > 0 {
      ShorterInterval(log, n - 1, ip, from, to, later);
    }
  }

  /** And at most ten since its current span began. */
  lemma AtMostTenPerSpan(start: real, events: seq<Event>, ip: string, to: real)
    requires ip != "" && Timely(State(map[], map[], [], start), events)
    ensures var s := Run(State(map[], map[], [], start), events, true);
            ip in s.rate ==> Passes(s, ip, s.rate[ip].started, to) <= RATE_LIMIT
  {
    var s := State(map[], map[], [], start);
    RunKeepsBounds(s, events, ip);
    RunsAgree(s, s, events);
    var t := Run(s, events, true);
    if ip in t.rate {
      CountSplits(t.passed, |t.passed|, ip, t.rate[ip].started, to, to);
    }
  }

  /** The waiting list stays within its cap. */
  lemma {:induction false} WaitingListCapped(s: State, events: seq<Event>, prune: bool)
    requires |s.pending| <= MAX_PENDING
    ensures |Run(s, events, prune).pending| <= MAX_PENDING
    decreases |events|
  {
    if events != [] {
      var t := Step(s, events[0], prune).0;
      PruneShrinks(s.pending, events[0].now);
      if events[0].Remove? {
        assert t.pending.Keys <= s.pending.Keys;
        SubsetSize(t.pending.Keys, s.pending.Keys);
        assert |t.pending| == |t.pending.Keys| && |s.pending| == |s.pending.Keys|;
      }
      WaitingListCapped(t, events[1..], prune);
    }
  }

  lemma PruneShrinks(pending: map<string, Waiting>, now: real)
    ensures |PruneWaiting(pending, now)| <= |pending|
  {
    var pruned := PruneWaiting(pending, now);
    assert pruned.Keys <= pending.Keys;
    SubsetSize(pruned.Keys, pending.Keys);
    assert |pruned| == |pruned.Keys| && |pending| == |pending.Keys|;
  }

  lemma {:induction false} SubsetSize(a: set<string>, b: set<string>)
    requires a <= b
    ensures |a| <= |b|
    decreases |b|
  {
    if b != {} {
      var x :| x in b;
      SubsetSize(a - {x}, b - {x});
    }
  }
}
