/** Sessions of remote commands: ids in use, forgotten after a time and never more than a cap. */
module Sessions {

  const TTL := 1800.0
  const MAX := 64

  datatype Session = Session(id: nat, at: real)

  predicate Expired(x: Session, now: real) {
    now - x.at > TTL
  }

  function UnexpiredTo(s: seq<Session>, n: nat, now: real): seq<Session>
    requires n <= |s|
  {
    if n == 0 then [] else UnexpiredTo(s, n - 1, now) + if Expired(s[n - 1], now) then [] else [s[n - 1]]
  }

  function Unexpired(s: seq<Session>, now: real): seq<Session> {
    UnexpiredTo(s, |s|, now)
  }

  function WithoutTo(s: seq<Session>, n: nat, id: nat): seq<Session>
    requires n <= |s|
  {
    if n == 0 then [] else WithoutTo(s, n - 1, id) + if s[n - 1].id == id then [] else [s[n - 1]]
  }

  function Without(s: seq<Session>, id: nat): seq<Session> {
    WithoutTo(s, |s|, id)
  }

  function Newest(s: seq<Session>): seq<Session> {
    if |s| > MAX then s[|s| - MAX..] else s
  }

  predicate Sorted(s: seq<Session>) {
    forall i, j | 0 <= i < j < |s| :: s[i].at <= s[j].at && s[i].id < s[j].id
  }

  /** Picking some of a sorted list in order keeps it sorted. */
  predicate PickedFrom(r: seq<Session>, s: seq<Session>, n: nat)
    requires n <= |s|
  {
    Sorted(r) && forall x | x in r :: exists i | 0 <= i < n :: s[i] == x
  }

  lemma PickMore(r: seq<Session>, s: seq<Session>, n: nat)
    requires Sorted(s) && n < |s| && PickedFrom(r, s, n)
    ensures PickedFrom(r, s, n + 1) && PickedFrom(r + [s[n]], s, n + 1)
  {
    forall k | 0 <= k < |r| ensures r[k].at <= s[n].at && r[k].id < s[n].id { assert r[k] in r; }
  }

  lemma {:induction false} FiltersPick(s: seq<Session>, n: nat, now: real, id: nat)
    requires Sorted(s) && n <= |s|
    ensures PickedFrom(UnexpiredTo(s, n, now), s, n) && PickedFrom(WithoutTo(s, n, id), s, n)
  {
    if n > 0 {
      FiltersPick(s, n - 1, now, id);
      PickMore(UnexpiredTo(s, n - 1, now), s, n - 1);
      PickMore(WithoutTo(s, n - 1, id), s, n - 1);
      assert UnexpiredTo(s, n - 1, now) + [] == UnexpiredTo(s, n - 1, now);
      assert WithoutTo(s, n - 1, id) + [] == WithoutTo(s, n - 1, id);
    }
  }

  // ------------------------------------------------------------------- the registry

  class Registry {
    var sessions: seq<Session>
    var counter: nat

    ghost predicate Valid()
      reads this
    {
      Sorted(sessions) && forall x | x in sessions :: x.id <= counter
    }

    constructor ()
      ensures Valid() && sessions == [] && counter == 0
    {
      sessions, counter := [], 0;
    }

    /** The clock is read twice: for the entry and for the sweep behind it. */
    method New(at: real, now: real) returns (id: nat)
      requires Valid() && at <= now && forall x | x in sessions :: x.at <= at
      modifies this
      ensures Valid() && id == counter == old(counter) + 1
      ensures sessions == Newest(Unexpired(old(sessions) + [Session(id, at)], now))
    {
      counter := counter + 1;
      id := counter;
      sessions := sessions + [Session(id, at)];
      Sweep(now);
    }

    method Sweep(now: real)
      requires Valid()
      modifies `sessions
      ensures Valid() && sessions == Newest(Unexpired(old(sessions), now))
    {
      DropExpired(now);
      EvictOldest();
    }

    method DropExpired(now: real)
      requires Valid()
      modifies `sessions
      ensures Valid() && sessions == Unexpired(old(sessions), now)
    {
      var live, i := [], 0;
      while i < |sessions|
        invariant 0 <= i <= |sessions| && sessions == old(sessions)
        invariant live == UnexpiredTo(sessions, i, now)
      {
        if !Expired(sessions[i], now) {
          live := live + [sessions[i]];
        }
        i := i + 1;
      }
      FiltersPick(sessions, i, now, 0);
      sessions := live;
    }

    method EvictOldest()
      requires Valid()
      modifies `sessions
      ensures Valid() && sessions == Newest(old(sessions))
    {
      ghost var live, gone := sessions, 0;
      while |sessions| > MAX
        invariant 0 <= gone <= |live| && sessions == live[gone..]
        invariant gone > 0 ==> |sessions| >= MAX
        invariant Valid()
      {
        PopOldest();
        assert live[gone..][1..] == live[gone + 1..];
        gone := gone + 1;
      }
    }

    method PopOldest()
      requires Valid() && sessions != []
      modifies `sessions
      ensures Valid() && sessions == old(sessions)[1..]
    {
      var oldest := Oldest();
      assert forall k | 0 < k < |sessions| :: sessions[0].at <= sessions[k].at;
      sessions := sessions[..oldest] + sessions[oldest + 1..];
    }

    /** The first of the sessions with the smallest time. */
    method Oldest() returns (k: nat)
      requires sessions != []
      ensures k < |sessions|
      ensures forall i | 0 <= i < |sessions| ::
                if i < k then sessions[k].at < sessions[i].at else sessions[k].at <= sessions[i].at
    {
      k := 0;
      var i := 1;
      while i < |sessions|
        invariant 1 <= i <= |sessions| && k < i
        invariant forall j | 0 <= j < i ::
                    if j < k then sessions[k].at < sessions[j].at else sessions[k].at <= sessions[j].at
      {
        if sessions[i].at < sessions[k].at {
          k := i;
        }
        i := i + 1;
      }
    }

    method Drop(id: nat)
      requires Valid()
      modifies `sessions
      ensures Valid() && sessions == Without(old(sessions), id)
    {
      var rest, i := [], 0;
      while i < |sessions|
        invariant 0 <= i <= |sessions| && sessions == old(sessions)
        invariant rest == WithoutTo(sessions, i, id)
      {
        if sessions[i].id != id {
          rest := rest + [sessions[i]];
        }
        i := i + 1;
      }
      FiltersPick(sessions, i, 0.0, id);
      sessions := rest;
    }

    method Clear()
      modifies `sessions
      ensures sessions == []
    {
      sessions := [];
    }
  }

  // --------------------------------------------------------------------- all runs

  /** Besides what the registry holds: every session ever made, which were dropped, the newest one
      the cap pushed out (`mark`) and the times of the last reading and of the last sweep. */
  datatype State = State(held: seq<Session>, log: seq<Session>, dropped: set<nat>, mark: int, clock: real, swept: real)

  datatype Event = New(at: real, now: real) | Drop(id: nat) | Clear

  function Init(start: real): State {
    State([], [], {}, 0, start, start)
  }

  function NewMark(all: seq<Session>, mark: int): int {
    if |all| > MAX then all[|all| - MAX].id - 1 else mark
  }

  function Step(s: State, e: Event): State {
    match e
    case New(at, now) =>
      var x := Session(|s.log| + 1, at);
      var all := Unexpired(s.held + [x], now);
      State(Newest(all), s.log + [x], s.dropped, NewMark(all, s.mark), now, now)
    case Drop(id) =>
      s.(held := Without(s.held, id), dropped := if 1 <= id <= |s.log| then s.dropped + {id} else s.dropped)
    case Clear => s.(held := [], dropped := s.dropped + set x | x in s.log :: x.id)
  }

  /** The clock never runs backwards. */
  predicate Timely(s: State, e: Event) {
    match e
    case New(at, now) => s.clock <= at <= now
    case Drop(id) => true
    case Clear => true
  }

  predicate Legal(s: State, events: seq<Event>)
    decreases |events|
  {
    events == [] || (Timely(s, events[0]) && Legal(Step(s, events[0]), events[1..]))
  }

  function Run(s: State, events: seq<Event>): State
    decreases |events|
  {
    if events == [] then s else Run(Step(s, events[0]), events[1..])
  }

  /** The reference: of the first n sessions ever made, in order, those from `from` on that are
      neither dropped nor expired. */
  function Live(log: seq<Session>, n: nat, dropped: set<nat>, from: int, now: real): seq<Session>
    requires n <= |log|
  {
    if n == 0 || n <= from then []
    else
      Live(log, n - 1, dropped, from, now) +
      if log[n - 1].id in dropped || Expired(log[n - 1], now) then [] else [log[n - 1]]
  }

  ghost predicate Inv(s: State) {
    && (forall i | 0 <= i < |s.log| :: s.log[i].id == i + 1 && s.log[i].at <= s.clock)
    && Sorted(s.log)
    && s.swept <= s.clock && 0 <= s.mark <= |s.log|
    && (forall id | id in s.dropped :: id <= |s.log|)
    && s.held == Live(s.log, |s.log|, s.dropped, s.mark, s.swept)
    && |s.held| <= MAX
  }

  lemma {:induction false} LivePrefix(log: seq<Session>, x: Session, n: nat, dropped: set<nat>, from: int, now: real)
    requires n <= |log|
    ensures Live(log + [x], n, dropped, from, now) == Live(log, n, dropped, from, now)
  {
    if n > from && n > 0 {
      LivePrefix(log, x, n - 1, dropped, from, now);
    }
  }

  lemma {:induction false} FilterPrefix(a: seq<Session>, x: Session, n: nat, now: real, id: nat)
    requires n <= |a|
    ensures UnexpiredTo(a + [x], n, now) == UnexpiredTo(a, n, now)
    ensures WithoutTo(a + [x], n, id) == WithoutTo(a, n, id)
  {
    if n > 0 {
      FilterPrefix(a, x, n - 1, now, id);
    }
  }

  lemma FilterAppend(a: seq<Session>, x: Session, now: real, id: nat)
    ensures Unexpired(a + [x], now) == Unexpired(a, now) + if Expired(x, now) then [] else [x]
    ensures Without(a + [x], id) == Without(a, id) + if x.id == id then [] else [x]
  {
    FilterPrefix(a, x, |a|, now, id);
  }

  lemma {:induction false} LiveLater(log: seq<Session>, n: nat, dropped: set<nat>, from: int, earlier: real, now: real)
    requires n <= |log| && earlier <= now
    ensures Unexpired(Live(log, n, dropped, from, earlier), now) == Live(log, n, dropped, from, now)
    decreases n
  {
    if n > from && n > 0 {
      var a := Live(log, n - 1, dropped, from, earlier);
      LiveLater(log, n - 1, dropped, from, earlier, now);
      FilterAppend(a, log[n - 1], now, 0);
      assert a + [] == a;
    }
  }

  lemma {:induction false} LiveDropped(log: seq<Session>, n: nat, dropped: set<nat>, from: int, now: real, id: nat)
    requires n <= |log|
    ensures Without(Live(log, n, dropped, from, now), id) == Live(log, n, dropped + {id}, from, now)
    decreases n
  {
    if n > from && n > 0 {
      var a := Live(log, n - 1, dropped, from, now);
      LiveDropped(log, n - 1, dropped, from, now, id);
      FilterAppend(a, log[n - 1], now, id);
      assert a + [] == a;
    }
  }

  lemma {:induction false} LiveCleared(log: seq<Session>, n: nat, dropped: set<nat>, from: int, now: real)
    requires n <= |log| && forall i | 0 <= i < n :: log[i].id in dropped
    ensures Live(log, n, dropped, from, now) == []
  {
    if n > from && n > 0 {
      LiveCleared(log, n - 1, dropped, from, now);
    }
  }

  /** What lives from the k-th live session on is what follows it in the list. */
  lemma {:induction false} LiveFrom(log: seq<Session>, n: nat, dropped: set<nat>, from: int, now: real, k: nat)
    requires n <= |log| && forall i | 0 <= i < n :: log[i].id == i + 1
    requires k < |Live(log, n, dropped, from, now)|
    ensures var all := Live(log, n, dropped, from, now);
            from < all[k].id <= n && all[k].id > 0 && Live(log, n, dropped, all[k].id - 1, now) == all[k..]
  {
    if n > from && n > 0 {
      var before := Live(log, n - 1, dropped, from, now);
      if k < |before| {
        LiveFrom(log, n - 1, dropped, from, now, k);
      }
    }
  }

  /** What a new entry and its sweep leave before the cap, in terms of everything ever made. */
  lemma NewIsLive(s: State, x: Session, now: real)
    requires Inv(s) && x.id == |s.log| + 1 && s.clock <= now
    ensures Live(s.log + [x], |s.log| + 1, s.dropped, s.mark, now) == Unexpired(s.held + [x], now)
  {
    LivePrefix(s.log, x, |s.log|, s.dropped, s.mark, now);
    LiveLater(s.log, |s.log|, s.dropped, s.mark, s.swept, now);
    FilterAppend(s.held, x, now, 0);
  }

  /** Cutting to the newest is moving the mark. */
  lemma CutMovesMark(log: seq<Session>, dropped: set<nat>, mark: int, now: real)
    requires 0 <= mark <= |log| && forall i | 0 <= i < |log| :: log[i].id == i + 1
    ensures var all := Live(log, |log|, dropped, mark, now);
            0 <= NewMark(all, mark) <= |log| && Newest(all) == Live(log, |log|, dropped, NewMark(all, mark), now)
  {
    var all := Live(log, |log|, dropped, mark, now);
    if |all| > MAX {
      LiveFrom(log, |log|, dropped, mark, now, |all| - MAX);
    }
  }

  lemma NewKeepsInv(s: State, at: real, now: real)
    requires Inv(s) && Timely(s, New(at, now))
    ensures Inv(Step(s, New(at, now)))
  {
    var x := Session(|s.log| + 1, at);
    NewIsLive(s, x, now);
    CutMovesMark(s.log + [x], s.dropped, s.mark, now);
  }

  lemma StepKeepsInv(s: State, e: Event)
    requires Inv(s) && Timely(s, e)
    ensures Inv(Step(s, e))
  {
    match e
    case New(at, now) => NewKeepsInv(s, at, now);
    case Drop(id) =>
      LiveDropped(s.log, |s.log|, s.dropped, s.mark, s.swept, id);
      if !(1 <= id <= |s.log|) {
        LiveIgnores(s.log, |s.log|, s.dropped, s.mark, s.swept, id);
      }
      WithoutShrinks(s.held, |s.held|, id);
    case Clear => LiveCleared(s.log, |s.log|, Step(s, e).dropped, s.mark, s.swept);
  }

  lemma {:induction false} LiveIgnores(log: seq<Session>, n: nat, dropped: set<nat>, from: int, now: real, id: nat)
    requires n <= |log| && forall x | x in log :: x.id != id
    ensures Live(log, n, dropped + {id}, from, now) == Live(log, n, dropped, from, now)
    decreases n
  {
    if n > from && n > 0 {
      assert log[n - 1] in log;
      LiveIgnores(log, n - 1, dropped, from, now, id);
    }
  }

  lemma {:induction false} WithoutShrinks(s: seq<Session>, n: nat, id: nat)
    requires n <= |s|
    ensures |WithoutTo(s, n, id)| <= n
  {
    if n > 0 {
      WithoutShrinks(s, n - 1, id);
    }
  }

  lemma {:induction false} RunKeepsInv(s: State, events: seq<Event>)
    requires Inv(s) && Legal(s, events)
    ensures Inv(Run(s, events))
    decreases |events|
  {
    if events != [] {
      StepKeepsInv(s, events[0]);
      RunKeepsInv(Step(s, events[0]), events[1..]);
    }
  }

  /** The undropped, unexpired sessions at the time of the last sweep. */
  function AllLive(s: State): seq<Session> {
    Live(s.log, |s.log|, s.dropped, 0, s.swept)
  }

  /** Moving the mark forward cuts the list from the front. */
  lemma {:induction false} LiveSuffix(log: seq<Session>, n: nat, dropped: set<nat>, from: int, later: int, now: real)
    requires n <= |log| && from <= later
    ensures var all := Live(log, n, dropped, from, now);
            var part := Live(log, n, dropped, later, now);
            |part| <= |all| && part == all[|all| - |part|..]
    decreases n
  {
    if n > from && n > 0 {
      LiveSuffix(log, n - 1, dropped, from, later, now);
    }
  }

  /** Over every run: never more than the cap, and exactly an end of the list of undropped, unexpired
      sessions, so nothing that lives is missing while an older one is held. */
  lemma HoldsTheNewest(start: real, events: seq<Event>)
    requires Legal(Init(start), events)
    ensures var s := Run(Init(start), events);
            var all := AllLive(s);
            |s.held| <= MAX && |s.held| <= |all| && s.held == all[|all| - |s.held|..]
  {
    RunKeepsInv(Init(start), events);
    var s := Run(Init(start), events);
    LiveSuffix(s.log, |s.log|, s.dropped, 0, s.mark, s.swept);
  }

  lemma NewIsHeldFrom(s: State, at: real, now: real)
    requires Inv(s) && Timely(s, New(at, now))
    ensures Session(|s.log| + 1, at) in Step(s, New(at, now)).held <==> now - at <= TTL
  {
    var x := Session(|s.log| + 1, at);
    var before := Unexpired(s.held, now);
    assert x !in before by {
      LiveLater(s.log, |s.log|, s.dropped, s.mark, s.swept, now);
      LiveIds(s.log, |s.log|, s.dropped, s.mark, now);
    }
    FilterAppend(s.held, x, now, 0);
    LastOfNewest(before, x, if Expired(x, now) then [] else [x]);
  }

  /** The id just returned is held exactly when its entry did not expire before its own sweep. */
  lemma NewIsHeld(start: real, events: seq<Event>, at: real, now: real)
    requires Legal(Init(start), events) && Timely(Run(Init(start), events), New(at, now))
    ensures var s := Run(Init(start), events);
            Session(|s.log| + 1, at) in Step(s, New(at, now)).held <==> now - at <= TTL
  {
    RunKeepsInv(Init(start), events);
    NewIsHeldFrom(Run(Init(start), events), at, now);
  }

  lemma LastOfNewest(a: seq<Session>, x: Session, more: seq<Session>)
    requires x !in a && (more == [] || more == [x])
    ensures x in Newest(a + more) <==> more == [x]
  {
    var all := a + more;
    if more == [x] {
      assert Newest(all)[|Newest(all)| - 1] == x;
    } else {
      assert forall y | y in Newest(all) :: y in a;
    }
  }

  lemma {:induction false} LiveAreYoung(log: seq<Session>, n: nat, dropped: set<nat>, from: int, now: real)
    requires n <= |log|
    ensures forall x | x in Live(log, n, dropped, from, now) :: x in log && x.id !in dropped && now - x.at <= TTL
  {
    if n > 0 {
      LiveAreYoung(log, n - 1, dropped, from, now);
    }
  }

  /** Nobody is held for more than half an hour after it was made, as of the last sweep, or after it was
      dropped, and never more than 64 are. */
  lemma HeldAreYoung(start: real, events: seq<Event>)
    requires Legal(Init(start), events)
    ensures var s := Run(Init(start), events);
            |s.held| <= 64 && forall x | x in s.held :: x in s.log && x.id !in s.dropped && s.swept - x.at <= 1800.0
  {
    RunKeepsInv(Init(start), events);
    var s := Run(Init(start), events);
    LiveAreYoung(s.log, |s.log|, s.dropped, s.mark, s.swept);
  }

  /** Every session the cap has pushed out so far is dropped or expired by now. */
  predicate PushedOutAreOver(s: State) {
    forall i | 0 <= i < |s.log| && i < s.mark :: s.log[i].id in s.dropped || Expired(s.log[i], s.swept)
  }

  lemma {:induction false} LiveHas(log: seq<Session>, n: nat, dropped: set<nat>, now: real, i: nat)
    requires i < n <= |log| && log[i].id !in dropped && !Expired(log[i], now)
    ensures log[i] in Live(log, n, dropped, 0, now)
    decreases n
  {
    if i < n - 1 {
      LiveHas(log, n - 1, dropped, now, i);
    }
  }

  lemma HeldIsAllExactly(s: State)
    requires Inv(s)
    ensures s.held == AllLive(s) <==> PushedOutAreOver(s)
  {
    if PushedOutAreOver(s) {
      NoneLiveBelow(s.log, |s.log|, s.dropped, s.mark, s.swept);
    } else {
      var i :| 0 <= i < |s.log| && i < s.mark && s.log[i].id !in s.dropped && !Expired(s.log[i], s.swept);
      LiveHas(s.log, |s.log|, s.dropped, s.swept, i);
      LiveIds(s.log, |s.log|, s.dropped, s.mark, s.swept);
      assert s.log[i] !in s.held;
    }
  }

  /** What is held is the newest 64 of what lives exactly when the list is full, or every session the
      cap pushed out is dropped or expired. */
  lemma NewestExactly(start: real, events: seq<Event>)
    requires Legal(Init(start), events)
    ensures var s := Run(Init(start), events);
            s.held == Newest(AllLive(s)) <==> |s.held| == MAX || PushedOutAreOver(s)
  {
    HoldsTheNewest(start, events);
    RunKeepsInv(Init(start), events);
    HeldIsAllExactly(Run(Init(start), events));
  }

  /** The list is full, or nothing that lives is missing from it. */
  ghost predicate NothingLost(s: State) {
    |s.held| == MAX || PushedOutAreOver(s)
  }

  /** As long as no single session is dropped the held ones are always the newest 64 of those that
      live; forgetting all of them at once does no harm. */
  lemma {:induction false} WithoutDropsNothingIsLost(s: State, events: seq<Event>)
    requires Inv(s) && NothingLost(s) && Legal(s, events)
    requires forall e | e in events :: !e.Drop?
    ensures NothingLost(Run(s, events))
    ensures Run(s, events).held == Newest(AllLive(Run(s, events)))
    decreases |events|
  {
    if events == [] {
      LiveSuffix(s.log, |s.log|, s.dropped, 0, s.mark, s.swept);
      HeldIsAllExactly(s);
    } else {
      assert events[0] in events;
      StepLosesNothing(s, events[0]);
      StepKeepsInv(s, events[0]);
      WithoutDropsNothingIsLost(Step(s, events[0]), events[1..]);
    }
  }

  lemma StepLosesNothing(s: State, e: Event)
    requires Inv(s) && NothingLost(s) && Timely(s, e) && !e.Drop?
    ensures NothingLost(Step(s, e))
  {
    if e.New? {
      NewLosesNothing(s, e.at, e.now);
    } else {
      assert forall i | 0 <= i < |s.log| :: s.log[i] in s.log;
    }
  }

  lemma NewLosesNothing(s: State, at: real, now: real)
    requires Inv(s) && NothingLost(s) && Timely(s, New(at, now))
    ensures NothingLost(Step(s, New(at, now)))
  {
    var x := Session(|s.log| + 1, at);
    if |Unexpired(s.held + [x], now)| <= MAX && |s.held| == MAX {
      OldestExpired(s, x, now);
    }
  }

  /** If a full list lost a session to the clock, everything pushed out before it has expired. */
  lemma OldestExpired(s: State, x: Session, now: real)
    requires Inv(s) && |s.held| == MAX && |Unexpired(s.held + [x], now)| <= MAX && s.clock <= x.at
    ensures forall i | 0 <= i < s.mark :: Expired(s.log[i], now)
  {
    forall i | 0 <= i < s.mark
      ensures Expired(s.log[i], now)
    {
      if !Expired(s.log[i], now) {
        LiveIds(s.log, |s.log|, s.dropped, s.mark, s.swept);
        var all := s.held + [x];
        forall k | 0 <= k < |all|
          ensures !Expired(all[k], now)
        {
          assert k < |s.held| ==> all[k] in s.held;
        }
        NoneExpired(all, |all|, now);
      }
    }
  }

  lemma {:induction false} NoneExpired(s: seq<Session>, n: nat, now: real)
    requires n <= |s| && forall k | 0 <= k < n :: !Expired(s[k], now)
    ensures |UnexpiredTo(s, n, now)| == n
  {
    if n > 0 {
      NoneExpired(s, n - 1, now);
    }
  }

  lemma {:induction false} NoneLiveBelow(log: seq<Session>, n: nat, dropped: set<nat>, mark: int, now: real)
    requires 0 <= mark <= n <= |log|
    requires forall i | 0 <= i < mark :: log[i].id in dropped || Expired(log[i], now)
    ensures Live(log, n, dropped, 0, now) == Live(log, n, dropped, mark, now)
    decreases n
  {
    if n > 0 {
      if n > mark {
        NoneLiveBelow(log, n - 1, dropped, mark, now);
      } else {
        NoneLiveBelow(log, n - 1, dropped, n - 1, now);
        assert Live(log, n - 1, dropped, 0, now) + [] == Live(log, n - 1, dropped, 0, now);
      }
    }
  }

  lemma {:induction false} LiveIds(log: seq<Session>, n: nat, dropped: set<nat>, from: int, now: real)
    requires n <= |log| && from >= 0 && forall i | 0 <= i < |log| :: log[i].id == i + 1
    ensures forall x | x in Live(log, n, dropped, from, now) :: from < x.id <= n && x == log[x.id - 1]
    decreases n
  {
    if n > from && n > 0 {
      LiveIds(log, n - 1, dropped, from, now);
    }
  }

  // --------------------------------------------- when a pushed-out session is missed

  /** Sessions from + 1 to `to`, all made at once. */
  function Numbered(from: nat, to: nat): (r: seq<Session>)
    requires from <= to
    ensures |r| == to - from
  {
    seq(to - from, i requires 0 <= i < to - from => Session(from + i + 1, 0.0))
  }

  lemma {:induction false} NoneRemoved(s: seq<Session>, n: nat, now: real, id: nat)
    requires n <= |s| && forall k | 0 <= k < n :: !Expired(s[k], now) && s[k].id != id
    ensures UnexpiredTo(s, n, now) == s[..n] && WithoutTo(s, n, id) == s[..n]
  {
    if n > 0 {
      NoneRemoved(s, n - 1, now, id);
    }
  }

  lemma OneMore(from: nat, n: nat)
    requires from <= n
    ensures var all := Numbered(from, n) + [Session(n + 1, 0.0)];
            all == Numbered(from, n + 1) && Unexpired(all, 0.0) == all
  {
    var all := Numbered(from, n) + [Session(n + 1, 0.0)];
    NoneRemoved(all, |all|, 0.0, 0);
  }

  lemma OneLess(from: nat, n: nat)
    requires from <= n
    ensures Without(Numbered(from, n + 1), n + 1) == Numbered(from, n)
  {
    var s := Numbered(from, n + 1);
    NoneRemoved(s, n - from, 0.0, n + 1);
    assert s[..n - from] == Numbered(from, n);
  }

  /** The 64 newest of n sessions. */
  function Filled(n: nat): (r: seq<Session>)
    ensures forall x | x in r :: x.at == 0.0
  {
    Numbered(if n > MAX then n - MAX else 0, n)
  }

  lemma FilledMore(n: nat)
    ensures Newest(Unexpired(Filled(n) + [Session(n + 1, 0.0)], 0.0)) == Filled(n + 1)
  {
    var from := if n > MAX then n - MAX else 0;
    OneMore(from, n);
    if n + 1 - from > MAX {
      assert Numbered(from, n + 1)[n + 1 - from - MAX..] == Numbered(n + 1 - MAX, n + 1);
    }
  }

  method FillRegistry(n: nat) returns (r: Registry)
    ensures fresh(r) && r.Valid() && r.counter == n && r.sessions == Filled(n)
  {
    r := new Registry();
    var i := 0;
    while i < n
      invariant 0 <= i <= n && fresh(r) && r.Valid() && r.counter == i && r.sessions == Filled(i)
    {
      FilledMore(i);
      var id := r.New(0.0, 0.0);
      i := i + 1;
    }
  }

  /** A full registry after two drops: the newest two of what is held are gone. */
  method FillAndDropTwo(n: nat) returns (r: Registry)
    requires n == MAX + 1
    ensures fresh(r) && r.Valid() && r.counter == n && r.sessions == Numbered(1, n - 2)
  {
    r := FillRegistry(n);
    OneLess(1, n - 1);
    r.Drop(n);
    OneLess(1, n - 2);
    r.Drop(n - 1);
  }

  /** A session that was pushed out does not come back when drops make room: of 66 sessions made at
      one moment two are dropped, so 64 live, but only 63 are held and the first is not among them. */
  method PushedOutStaysOut() returns (r: Registry)
    ensures fresh(r) && r.counter == 66
    ensures r.sessions == Numbered(1, 63) + [Session(66, 0.0)]
    ensures |r.sessions| == 63 && forall x | x in r.sessions :: x.id != 1
  {
    r := FillAndDropTwo(65);
    var all := r.sessions + [Session(66, 0.0)];
    NoneRemoved(all, |all|, 0.0, 0);
    assert all[..|all|] == all;
    var id := r.New(0.0, 0.0);
  }
}
