/** How many new names an address can get past the limiter within a window: a run that reaches the bound. */
module EnrolBurst {
  import opened EnrolLimiter

  /** Names that differ, by their length. */
  function Name(k: nat): (name: string)
    ensures |name| == k
  {
    seq(k, _ => 'n')
  }

  /** Only names shorter than k wait, none for long. */
  ghost predicate Waits(s: State, k: nat) {
    && |s.pending| <= k && s.clock <= 100.0
    && (forall name | name in s.pending :: |name| < k && s.pending[name].requestedAt >= 0.0)
  }

  lemma NobodyForgotten(s: State, k: nat, now: real)
    requires Waits(s, k) && 0.0 <= now <= 100.0
    ensures PruneWaiting(s.pending, now) == s.pending && Name(k) !in s.pending
  {
  }

  function One(now: real, from: real, to: real): nat {
    if from <= now < to then 1 else 0
  }

  /** One more new name passes, in the current span or as the first of the next one. */
  lemma OnePasses(s: State, k: nat, ip: string, now: real, rate: map<string, Span>, from: real, to: real)
    requires Waits(s, k) && k < MAX_PENDING && 0.0 <= s.clock <= now <= 100.0 && ip != ""
    requires |s.rate| <= 1 && RateStep(s.rate, ip, now) == (rate, true)
    ensures var t := Step(s, Enrol(Name(k), "", ip, now), true).0;
            && Waits(t, k + 1) && t.rate == rate && t.clock == now
            && Passes(t, ip, from, to) == Passes(s, ip, from, to) + One(now, from, to)
  {
    NobodyForgotten(s, k, now);
    assert Whole(now) >= 0.0;
    CountAppend(s.passed, Pass(ip, now), ip, from, to);
  }

  lemma OneAddress(ip: string, w: Span)
    ensures |map[ip := w]| == 1
  {
    assert map[ip := w].Keys == {ip};
    assert |map[ip := w].Keys| == |map[ip := w]|;
  }

  /** This address alone has passed, with w as its span, and k names wait. */
  ghost predicate Reached(s: State, k: nat, ip: string, w: Span, now: real) {
    Waits(s, k) && 0.0 <= s.clock <= now <= 100.0 && s.rate == map[ip := w]
  }

  lemma InSpan(s: State, k: nat, ip: string, now: real, w: Span, from: real, to: real)
    requires Reached(s, k, ip, w, now) && k < MAX_PENDING && ip != ""
    requires now - w.started < RATE_WINDOW && w.count < RATE_LIMIT
    ensures var t := Step(s, Enrol(Name(k), "", ip, now), true).0;
            && Reached(t, k + 1, ip, Span(w.started, w.count + 1), now)
            && Passes(t, ip, from, to) == Passes(s, ip, from, to) + One(now, from, to)
  {
    var rate := map[ip := Span(w.started, w.count + 1)];
    assert s.rate[ip := Span(w.started, w.count + 1)] == rate;
    OneAddress(ip, w);
    OnePasses(s, k, ip, now, rate, from, to);
  }

  lemma NextSpan(s: State, k: nat, ip: string, now: real, w: Span, from: real, to: real)
    requires Reached(s, k, ip, w, now) && k < MAX_PENDING && ip != "" && now - w.started >= RATE_WINDOW
    ensures var t := Step(s, Enrol(Name(k), "", ip, now), true).0;
            && Reached(t, k + 1, ip, Span(now, 1), now)
            && Passes(t, ip, from, to) == Passes(s, ip, from, to) + One(now, from, to)
  {
    var rate := map[ip := Span(now, 1)];
    assert s.rate[ip := Span(now, 1)] == rate;
    OneAddress(ip, w);
    OnePasses(s, k, ip, now, rate, from, to);
  }

  lemma FirstSpan(ip: string, from: real, to: real)
    requires ip != ""
    ensures var t := Step(State(map[], map[], [], 0.0), Enrol(Name(0), "", ip, 0.0), true).0;
            Reached(t, 1, ip, Span(0.0, 1), 0.0) && Passes(t, ip, from, to) == One(0.0, from, to)
  {
    var s, rate := State(map[], map[], [], 0.0), map[ip := Span(0.0, 1)];
    assert s.rate[ip := Span(0.0, 1)] == rate;
    OnePasses(s, 0, ip, 0.0, rate, from, to);
  }

  /** Some events from a state, and where they lead. */
  ghost predicate Leads(s: State, events: seq<Event>, t: State) {
    Timely(s, events) && Run(s, events, true) == t
  }

  lemma Prepend(s: State, e: Event, t: State, rest: seq<Event>, last: State)
    requires t == Step(s, e, true).0 && s.clock <= e.now && t.clock == e.now && Leads(t, rest, last)
    ensures Leads(s, [e] + rest, last)
  {
    assert ([e] + rest)[1..] == rest;
    TimelyIsAboutClock(t, s.(clock := e.now), rest);
  }

  lemma InSpanStep(s: State, k: nat, ip: string, now: real, w: Span, from: real, to: real) returns (e: Event, t: State)
    requires Reached(s, k, ip, w, now) && k < MAX_PENDING && ip != ""
    requires now - w.started < RATE_WINDOW && w.count < RATE_LIMIT
    ensures t == Step(s, e, true).0 && s.clock <= e.now && t.clock == e.now
    ensures Reached(t, k + 1, ip, Span(w.started, w.count + 1), now)
    ensures Passes(t, ip, from, to) == Passes(s, ip, from, to) + One(now, from, to)
  {
    e := Enrol(Name(k), "", ip, now);
    t := Step(s, e, true).0;
    InSpan(s, k, ip, now, w, from, to);
  }

  /** Names at one moment pass as long as the current span has room for them: k of them wait and `count`
      are in the span after the last one. */
  lemma {:induction false} Fill(s: State, k: nat, n: nat, ip: string, now: real, started: real, count: nat,
                                from: real, to: real) returns (events: seq<Event>, last: State)
    requires n <= k <= MAX_PENDING && n <= count <= RATE_LIMIT && ip != "" && from <= now < to
    requires Reached(s, k - n, ip, Span(started, count - n), now) && now - started < RATE_WINDOW
    ensures Leads(s, events, last) && Reached(last, k, ip, Span(started, count), now)
    ensures Passes(last, ip, from, to) == Passes(s, ip, from, to) + n
    decreases n
  {
    if n == 0 {
      events, last := [], s;
    } else {
      var e, t := InSpanStep(s, k - n, ip, now, Span(started, count - n), from, to);
      var rest;
      rest, last := Fill(t, k, n - 1, ip, now, started, count, from, to);
      Prepend(s, e, t, rest, last);
      events := [e] + rest;
    }
  }

  lemma FirstLeads(s: State, a: seq<Event>, t: State) returns (next: State)
    requires a != [] && Leads(s, a, t)
    ensures next == Step(s, a[0], true).0 && s.clock <= a[0].now && next.clock == a[0].now && Leads(next, a[1..], t)
  {
    next := Step(s, a[0], true).0;
    TimelyIsAboutClock(s.(clock := a[0].now), next, a[1..]);
  }

  lemma Regroup(a: seq<Event>, b: seq<Event>)
    requires a != []
    ensures [a[0]] + (a[1..] + b) == a + b
  {
  }

  lemma {:induction false} LeadsOn(s: State, a: seq<Event>, t: State, b: seq<Event>, last: State)
    requires Leads(s, a, t) && Leads(t, b, last)
    ensures Leads(s, a + b, last)
    decreases |a|
  {
    if a == [] {
      assert a + b == b;
    } else {
      var next := FirstLeads(s, a, t);
      LeadsOn(next, a[1..], t, b, last);
      Prepend(s, a[0], next, a[1..] + b, last);
      Regroup(a, b);
    }
  }

  /** The first name opens a span, late in which the others come that it has room for. */
  lemma SpanFilledLate(ip: string, n: nat) returns (events: seq<Event>, last: State)
    requires ip != "" && n + 1 == RATE_LIMIT
    ensures Leads(State(map[], map[], [], 0.0), events, last)
    ensures Reached(last, n + 1, ip, Span(0.0, n + 1), 59.0) && Passes(last, ip, 59.0, 119.0) == n
  {
    var s, first := State(map[], map[], [], 0.0), Enrol(Name(0), "", ip, 0.0);
    var t := Step(s, first, true).0;
    FirstSpan(ip, 59.0, 119.0);
    var rest;
    rest, last := Fill(t, n + 1, n, ip, 59.0, 0.0, n + 1, 59.0, 119.0);
    Prepend(s, first, t, rest, last);
    events := [first] + rest;
  }

  /** As many open the next span. */
  lemma NextSpanFilled(s: State, ip: string, k: nat) returns (events: seq<Event>, last: State)
    requires ip != "" && k == RATE_LIMIT && Reached(s, k, ip, Span(0.0, k), 59.0)
    ensures Leads(s, events, last) && Passes(last, ip, 59.0, 119.0) == Passes(s, ip, 59.0, 119.0) + k
  {
    var next := Enrol(Name(k), "", ip, 60.0);
    var t := Step(s, next, true).0;
    NextSpan(s, k, ip, 60.0, Span(0.0, k), 59.0, 119.0);
    var rest;
    rest, last := Fill(t, 2 * k, k - 1, ip, 60.0, 60.0, k, 59.0, 119.0);
    Prepend(s, next, t, rest, last);
    events := [next] + rest;
  }

  /** Nineteen names within the length of one window: the bound of `AtMostNineteenPerWindow` is reached,
      by any address. */
  lemma NineteenReached(ip: string) returns (events: seq<Event>)
    requires ip != ""
    ensures Timely(State(map[], map[], [], 0.0), events)
    ensures Passes(Run(State(map[], map[], [], 0.0), events, true), ip, 59.0, 59.0 + RATE_WINDOW) == 2 * RATE_LIMIT - 1
  {
    var early, s := SpanFilledLate(ip, 9);
    var late, last := NextSpanFilled(s, ip, 10);
    LeadsOn(State(map[], map[], [], 0.0), early, s, late, last);
    events := early + late;
  }
}
