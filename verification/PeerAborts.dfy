/** Which waiting calls the exit of a peer reaches, and which it misses. */
module PeerAborts {
  import opened Common
  import opened PeerTable

  /** An abort for the name ran since the call was put on the list. */
  predicate AbortedSince(aborts: seq<Registration>, name: string, since: nat) {
    exists k | 0 <= k < |aborts| :: since <= k && aborts[k].name == name
  }

  /** A thread still has this call on its list. */
  ghost predicate JobFor(s: State, rid: Rid) {
    exists c | c in s.conns :: Wakes(s.conns[c].jobs, rid)
  }

  predicate Wakes(jobs: seq<Job>, rid: Rid) {
    exists i | 0 <= i < |jobs| :: jobs[i].rid == rid
  }

  ghost predicate Reached(s: State, rid: Rid) {
    rid in s.callers && HasEntry(s.callers[rid].stage) ==>
      && s.callers[rid].since <= |s.aborts|
      && (rid in s.t.pending <==> !AbortedSince(s.aborts, s.callers[rid].target, s.callers[rid].since))
      && (rid !in s.t.pending ==> s.callers[rid].awake || JobFor(s, rid))
  }

  /** The connection a call found carries the name it asked for. */
  predicate OnItsPeer(s: State, rid: Rid) {
    rid in s.callers && s.callers[rid].conn.Some? ==>
      && s.callers[rid].conn.value in s.conns
      && s.conns[s.callers[rid].conn.value].name == s.callers[rid].target
      && s.conns[s.callers[rid].conn.value].phase != Greeting
  }

  predicate Idle(s: State, c: Conn) {
    c in s.conns && s.conns[c].phase.Left? ==> s.conns[c].jobs == []
  }

  /** A connection aborts when it is gone, and not before. */
  ghost predicate AbortLogged(s: State, c: Conn) {
    c in s.conns ==>
      (s.conns[c].phase == Gone <==> Registration(s.conns[c].name, c) in s.aborts)
  }

  ghost predicate AbortInv(s: State) {
    && LogInv(s) && WaitInv(s)
    && (forall rid :: Reached(s, rid) && OnItsPeer(s, rid))
    && (forall c :: Idle(s, c) && AbortLogged(s, c))
    && (forall k | 0 <= k < |s.aborts| :: s.aborts[k].c in s.conns && s.conns[s.aborts[k].c].phase == Gone)
    && (forall j, k | 0 <= j < k < |s.aborts| :: s.aborts[j].c != s.aborts[k].c)
  }

  lemma AbortedMore(aborts: seq<Registration>, r: Registration, name: string, since: nat)
    requires since <= |aborts|
    ensures AbortedSince(aborts + [r], name, since) <==> AbortedSince(aborts, name, since) || r.name == name
  {
    var more := aborts + [r];
    if AbortedSince(aborts, name, since) {
      var k :| 0 <= k < |aborts| && since <= k && aborts[k].name == name;
      assert more[k].name == name;
    }
    if r.name == name {
      assert more[|aborts|].name == name;
    }
  }

  lemma AbortKeepsReached(s: State, c: Conn, doomed: seq<Rid>, rid: Rid)
    requires AbortInv(s) && Enabled(s, AbortWaiting(c, doomed))
    ensures Reached(Step(s, AbortWaiting(c, doomed)), rid)
  {
    var t := Step(s, AbortWaiting(c, doomed));
    assert Reached(s, rid) && Idle(s, c);
    if rid in s.callers && HasEntry(s.callers[rid].stage) {
      var caller := s.callers[rid];
      AbortedMore(s.aborts, Registration(s.conns[c].name, c), caller.target, caller.since);
      if rid in s.t.pending && rid !in t.t.pending {
        var i :| 0 <= i < |doomed| && doomed[i] == rid;
        assert t.conns[c].jobs[i].rid == rid;
        assert Wakes(t.conns[c].jobs, rid);
      } else if rid !in s.t.pending && !caller.awake {
        JobStays(s, AbortWaiting(c, doomed), rid);
      }
    }
  }

  lemma JobStays(s: State, e: Event, rid: Rid)
    requires AbortInv(s) && Enabled(s, e) && JobFor(s, rid) && rid in s.callers
    ensures JobFor(Step(s, e), rid) || Step(s, e).callers[rid].awake
  {
    var t := Step(s, e);
    var c :| c in s.conns && Wakes(s.conns[c].jobs, rid);
    assert Idle(s, c) && SoundJobs(s.callers, s.conns[c].jobs);
    var jobs := s.conns[c].jobs;
    var i :| 0 <= i < |jobs| && jobs[i].rid == rid;
    var later := t.conns[c].jobs;
    if !(e.Advance? && e.c == c) {
      assert later == jobs;
      assert Wakes(later, rid);
    } else if jobs[0].filled && i > 0 {
      assert later[i - 1].rid == rid;
      assert Wakes(later, rid);
    } else if !jobs[0].filled {
      assert later[i].rid == rid;
      assert Wakes(later, rid);
    }
  }

  lemma CallerStepsKeepReached(s: State, e: Event, rid: Rid)
    requires AbortInv(s) && Enabled(s, e) && IsCallerStep(e)
    ensures Reached(Step(s, e), rid)
  {
    assert Reached(s, rid);
    if rid in s.callers && HasEntry(s.callers[rid].stage) && rid !in s.t.pending && !s.callers[rid].awake {
      JobStays(s, e, rid);
    }
  }

  lemma ConnStepsKeepReached(s: State, e: Event, rid: Rid)
    requires AbortInv(s) && Enabled(s, e) && !IsCallerStep(e) && !e.AbortWaiting?
    ensures Reached(Step(s, e), rid)
  {
    assert Reached(s, rid);
    if rid in s.callers && HasEntry(s.callers[rid].stage) && rid !in s.t.pending && !s.callers[rid].awake {
      JobStays(s, e, rid);
    }
  }

  lemma StepKeepsPeers(s: State, e: Event, rid: Rid)
    requires AbortInv(s) && Enabled(s, e)
    ensures OnItsPeer(Step(s, e), rid)
  {
    assert OnItsPeer(s, rid);
    if e.LookUp? && e.rid == rid {
      assert HeldBy(s, e.target, Holder(s, e.target));
    }
  }

  lemma StepKeepsLogged(s: State, e: Event, c: Conn)
    requires AbortInv(s) && Enabled(s, e)
    ensures Idle(Step(s, e), c) && AbortLogged(Step(s, e), c)
  {
    assert Idle(s, c) && AbortLogged(s, c);
  }

  lemma StepKeepsAborts(s: State, e: Event)
    requires AbortInv(s) && Enabled(s, e)
    ensures AbortInv(Step(s, e))
  {
    var t := Step(s, e);
    StepKeepsLog(s, e);
    StepKeepsWait(s, e);
    forall rid ensures Reached(t, rid) && OnItsPeer(t, rid) {
      StepKeepsPeers(s, e, rid);
      if e.AbortWaiting? {
        AbortKeepsReached(s, e.c, e.doomed, rid);
      } else if IsCallerStep(e) {
        CallerStepsKeepReached(s, e, rid);
      } else {
        ConnStepsKeepReached(s, e, rid);
      }
    }
    forall c ensures Idle(t, c) && AbortLogged(t, c) {
      StepKeepsLogged(s, e, c);
    }
    AbortersStayGone(s, e);
  }

  lemma AbortersStayGone(s: State, e: Event)
    requires AbortInv(s) && Enabled(s, e)
    ensures var t := Step(s, e);
            && (forall k | 0 <= k < |t.aborts| :: t.aborts[k].c in t.conns && t.conns[t.aborts[k].c].phase == Gone)
            && (forall j, k | 0 <= j < k < |t.aborts| :: t.aborts[j].c != t.aborts[k].c)
  {
  }

  lemma {:induction false} RunKeepsAborts(s: State, events: seq<Event>)
    requires AbortInv(s) && Legal(s, events)
    ensures AbortInv(Run(s, events))
    decreases |events|
  {
    if events != [] {
      StepKeepsAborts(s, events[0]);
      RunKeepsAborts(Step(s, events[0]), events[1..]);
    }
  }

  // ---------------------------------------------------------------------- results

  /** Over every interleaving: a call that is not over is taken off the list exactly when an abort for
      its name ran since it was put there, whichever connection that abort was for. */
  lemma AbortReachesExactly(events: seq<Event>, rid: Rid)
    requires Legal(INIT, events)
    requires rid in Run(INIT, events).callers && HasEntry(Run(INIT, events).callers[rid].stage)
    ensures var s := Run(INIT, events);
            rid !in s.t.pending <==> AbortedSince(s.aborts, s.callers[rid].target, s.callers[rid].since)
  {
    RunKeepsAborts(INIT, events);
    assert Reached(Run(INIT, events), rid);
  }

  /** And whoever was taken off the list is awake, or on the list of the thread that wakes it. */
  lemma ReachedIsWoken(events: seq<Event>, rid: Rid)
    requires Legal(INIT, events)
    requires rid in Run(INIT, events).callers && HasEntry(Run(INIT, events).callers[rid].stage)
    ensures var s := Run(INIT, events);
            rid !in s.t.pending ==> s.callers[rid].awake || JobFor(s, rid)
  {
    RunKeepsAborts(INIT, events);
    assert Reached(Run(INIT, events), rid);
  }

  predicate Ended(s: State, c: Conn) {
    c in s.conns && (s.conns[c].phase == Gone || s.conns[c].phase == Left(false))
  }

  /** That connection's own abort ran before the call was listed. */
  predicate ListedTooLate(s: State, caller: Caller, c: Conn) {
    exists k | 0 <= k < |s.aborts| :: k < caller.since && s.aborts[k] == Registration(caller.target, c)
  }

  /** Another connection under the name aborted since the call was listed. */
  predicate ReachedByAnother(s: State, caller: Caller, c: Conn) {
    exists k | 0 <= k < |s.aborts| :: caller.since <= k && s.aborts[k].name == caller.target && s.aborts[k].c != c
  }

  /** A call whose connection has ended is missed exactly when that connection had been replaced (then it
      aborts nothing) or the call was listed after its abort, and no other connection under the name
      aborted since. */
  lemma MissedExactly(events: seq<Event>, rid: Rid, c: Conn)
    requires Legal(INIT, events)
    requires var s := Run(INIT, events);
             rid in s.callers && HasEntry(s.callers[rid].stage) && s.callers[rid].conn == Some(c) && Ended(s, c)
    ensures var s := Run(INIT, events);
            var caller := s.callers[rid];
            rid in s.t.pending <==>
              !ReachedByAnother(s, caller, c) && (s.conns[c].phase == Left(false) || ListedTooLate(s, caller, c))
  {
    RunKeepsAborts(INIT, events);
    MissedIn(Run(INIT, events), rid, c);
  }

  lemma MissedIn(s: State, rid: Rid, c: Conn)
    requires AbortInv(s) && rid in s.callers && HasEntry(s.callers[rid].stage)
    requires s.callers[rid].conn == Some(c) && Ended(s, c)
    ensures var caller := s.callers[rid];
            rid in s.t.pending <==>
              !ReachedByAnother(s, caller, c) && (s.conns[c].phase == Left(false) || ListedTooLate(s, caller, c))
  {
    var caller := s.callers[rid];
    var own := Registration(caller.target, c);
    assert Reached(s, rid) && OnItsPeer(s, rid) && AbortLogged(s, c);
    if !AbortedSince(s.aborts, caller.target, caller.since) && s.conns[c].phase == Gone {
      var k :| 0 <= k < |s.aborts| && s.aborts[k] == own;
      assert k < caller.since;
    }
  }

  // ------------------------------------------------------------------------ traces

  lemma Then(events: seq<Event>, e: Event) returns (longer: seq<Event>)
    requires Legal(INIT, events) && Enabled(Run(INIT, events), e)
    ensures Legal(INIT, longer) && Run(INIT, longer) == Step(Run(INIT, events), e)
  {
    longer := ThenFrom(INIT, events, e);
  }

  lemma {:induction false} ThenFrom(s: State, events: seq<Event>, e: Event) returns (longer: seq<Event>)
    requires Legal(s, events) && Enabled(Run(s, events), e)
    ensures Legal(s, longer) && Run(s, longer) == Step(Run(s, events), e)
    decreases |events|
  {
    if events == [] {
      longer := [e];
      assert [e][1..] == [];
    } else {
      var rest := ThenFrom(Step(s, events[0]), events[1..], e);
      longer := [events[0]] + rest;
      assert longer[1..] == rest;
    }
  }

  const TABLES := Tables(map[], map[], map[], map[])

  function Peer(name: string, phase: Phase): Handler {
    Handler(name, "", "", phase, [])
  }

  function Online(name: string, c: Conn): Tables {
    Register(TABLES, name, c, "", "")
  }

  /** A call has found the only connection of a name. */
  lemma CallLooksUp(name: string) returns (events: seq<Event>)
    requires name != ""
    ensures Legal(INIT, events)
    ensures Run(INIT, events) ==
            State(Online(name, 1), map[1 := Peer(name, Serving)],
                  map[0 := Caller(name, Some(1), LookedUp, None, false, 0)], [Registration(name, 1)], [])
  {
    events := Then([], Accept(1));
    events := Then(events, Join(1, name, "", ""));
    events := Then(events, LookUp(0, name));
  }

  lemma CallIsSent(name: string) returns (events: seq<Event>)
    requires name != ""
    ensures Legal(INIT, events)
    ensures Run(INIT, events) ==
            State(Online(name, 1).(pending := map[0 := name]), map[1 := Peer(name, Serving)],
                  map[0 := Caller(name, Some(1), Waiting, None, false, 0)], [Registration(name, 1)], [])
  {
    events := CallLooksUp(name);
    events := Then(events, Insert(0));
    events := Then(events, Transmit(0, true));
  }

  /** The call is listed and sent; then the peer comes back on a second connection and the first one
      ends. It was replaced, so it wakes nobody: the call sleeps until its timeout. */
  lemma ReplacedCallerSleeps(name: string) returns (events: seq<Event>)
    requires name != ""
    ensures Legal(INIT, events)
    ensures var s := Run(INIT, events);
            && s.callers == map[0 := Caller(name, Some(1), Waiting, None, false, 0)] && 0 in s.t.pending
            && 1 in s.conns && s.conns[1] == Peer(name, Left(false))
  {
    events := CallIsSent(name);
    events := Then(events, Accept(2));
    events := Then(events, Join(2, name, "", ""));
    events := Then(events, Leave(1));
  }

  lemma PeerLeaves(name: string) returns (events: seq<Event>)
    requires name != ""
    ensures Legal(INIT, events)
    ensures Run(INIT, events) ==
            State(TABLES, map[1 := Peer(name, Gone)],
                  map[0 := Caller(name, Some(1), LookedUp, None, false, 0)], [Registration(name, 1)],
                  [Registration(name, 1)])
  {
    events := CallLooksUp(name);
    events := Then(events, Leave(1));
    assert WaitingFor(Run(INIT, events).t, name) == {};
    assert Run(INIT, events).t == TABLES;
    events := Then(events, AbortWaiting(1, []));
    assert Run(INIT, events).t == TABLES && Run(INIT, events).conns[1].jobs == [];
  }

  /** The peer leaves and its callers are woken before the call puts itself on the list. */
  lemma LateCallerSleeps(name: string) returns (events: seq<Event>)
    requires name != ""
    ensures Legal(INIT, events)
    ensures var s := Run(INIT, events);
            && s.callers == map[0 := Caller(name, Some(1), Waiting, None, false, 1)] && 0 in s.t.pending
            && 1 in s.conns && s.conns[1] == Peer(name, Gone) && name !in s.t.peers
  {
    events := PeerLeaves(name);
    events := Then(events, Insert(0));
    events := Then(events, Transmit(0, true));
  }

  lemma PeerWasThere(name: string) returns (events: seq<Event>)
    requires name != ""
    ensures Legal(INIT, events)
    ensures Run(INIT, events) ==
            State(TABLES, map[1 := Peer(name, Left(true))], map[], [Registration(name, 1)], [])
  {
    events := Then([], Accept(1));
    events := Then(events, Join(1, name, "", ""));
    events := Then(events, Leave(1));
    assert Run(INIT, events).t == TABLES;
  }

  lemma PeerIsBack(name: string) returns (events: seq<Event>)
    requires name != ""
    ensures Legal(INIT, events)
    ensures Run(INIT, events) ==
            State(Online(name, 2), map[1 := Peer(name, Left(true)), 2 := Peer(name, Serving)], map[],
                  [Registration(name, 1), Registration(name, 2)], [])
  {
    events := PeerWasThere(name);
    events := Then(events, Accept(2));
    events := Then(events, Join(2, name, "", ""));
    assert Run(INIT, events).t == Online(name, 2);
  }

  /** The abort goes by name: a call on the new connection of a peer that is back is told its peer
      dropped when the old connection's abort comes late. */
  lemma NewerCallIsDropped(name: string) returns (events: seq<Event>)
    requires name != ""
    ensures Legal(INIT, events)
    ensures var s := Run(INIT, events);
            && 2 in s.conns && s.conns[2] == Peer(name, Serving)
            && 0 in s.callers && s.callers[0].conn == Some(2)
            && s.callers[0].stage == Waiting && s.callers[0].box == Some(Dropped)
  {
    events := PeerIsBack(name);
    events := Then(events, LookUp(0, name));
    events := Then(events, Insert(0));
    events := Then(events, Transmit(0, true));
    assert WaitingFor(Run(INIT, events).t, name) == {0};
    events := Then(events, AbortWaiting(1, [0]));
    events := Then(events, Advance(1));
  }
}
