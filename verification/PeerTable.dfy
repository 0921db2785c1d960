/** The hub's table of online peers and its waiting callers, under any interleaving of its threads. */
module PeerTable {
  import opened Common

  type Conn = nat
  type Rid = nat

  datatype Reply = Reply(request: Rid, text: string) | Dropped

  /** What the hub keeps under its lock: name -> connection, identity and build of every online peer,
      and the target of every waiting call. */
  datatype Tables = Tables(peers: map<string, Conn>, apps: map<string, string>, infos: map<string, string>,
                           pending: map<Rid, string>)

  function Register(t: Tables, name: string, c: Conn, app: string, info: string): Tables {
    t.(peers := t.peers[name := c], apps := t.apps[name := app], infos := t.infos[name := info])
  }

  /** The end of a connection's handler: a name another connection holds by now is left alone. */
  function Unregister(t: Tables, name: string, c: Conn): (Tables, bool) {
    if name in t.peers && t.peers[name] == c
    then (t.(peers := t.peers - {name}, apps := t.apps - {name}, infos := t.infos - {name}), true)
    else (t, false)
  }

  function WaitingFor(t: Tables, name: string): set<Rid> {
    set rid | rid in t.pending && t.pending[rid] == name
  }

  // ------------------------------------------------------------------- the threads

  /** A connection's own thread: `?` until the handshake gave it a name. */
  datatype Phase = Greeting | Serving | Left(registered: bool) | Gone

  /** What a connection's thread still has to do for the callers it wakes: fill the box, then wake. */
  datatype Job = Job(rid: Rid, reply: Reply, filled: bool)

  datatype Handler = Handler(name: string, app: string, info: string, phase: Phase, jobs: seq<Job>)

  datatype Outcome = Answered(reply: Reply) | NoPeer | SendFailed | TimedOut | EmptyBox

  /** A thread inside a waiting call. */
  datatype Stage = LookedUp | Inserted | Waiting | Popping(outcome: Outcome) | Returned(outcome: Outcome)

  /** `conn` is the connection the call found and is sent on, `since` how many aborts there had been when
      it was put on the list. */
  datatype Caller = Caller(target: string, conn: Option<Conn>, stage: Stage, box: Option<Reply>, awake: bool,
                           since: nat)

  datatype Registration = Registration(name: string, c: Conn)

  /** `log` are the registrations and `aborts` the aborts so far, in order. */
  datatype State = State(t: Tables, conns: map<Conn, Handler>, callers: map<Rid, Caller>, log: seq<Registration>,
                         aborts: seq<Registration>)

  datatype Event =
    | Accept(c: Conn)
    | Join(c: Conn, name: string, app: string, info: string)
    | Leave(c: Conn)
    | AbortWaiting(c: Conn, doomed: seq<Rid>)
    | FindWaiting(c: Conn, reply: Reply)
    | Advance(c: Conn)
    | LookUp(rid: Rid, target: string)
    | Insert(rid: Rid)
    | Transmit(rid: Rid, sent: bool)
    | WakeUp(rid: Rid)
    | GiveUp(rid: Rid)
    | Return(rid: Rid)

  const INIT := State(Tables(map[], map[], map[], map[]), map[], map[], [], [])

  predicate Lists<T>(items: seq<T>, all: set<T>) {
    && (forall x | x in items :: x in all)
    && (forall x | x in all :: x in items)
    && (forall i, j | 0 <= i < j < |items| :: items[i] != items[j])
  }

  predicate Enabled(s: State, e: Event) {
    match e
    case Accept(c) => c !in s.conns
    case Join(c, name, app, info) => c in s.conns && s.conns[c].phase == Greeting && name != ""
    case Leave(c) =>
      c in s.conns && (s.conns[c].phase == Greeting || s.conns[c].phase == Serving) && s.conns[c].jobs == []
    case AbortWaiting(c, doomed) =>
      && c in s.conns && s.conns[c].phase == Left(true)
      && Lists(doomed, WaitingFor(s.t, s.conns[c].name))
    case FindWaiting(c, reply) => c in s.conns && s.conns[c].phase == Serving && s.conns[c].jobs == [] && reply.Reply?
    case Advance(c) => c in s.conns && s.conns[c].jobs != []
    case LookUp(rid, target) => rid !in s.callers
    case Insert(rid) => rid in s.callers && s.callers[rid].stage.LookedUp?
    case Transmit(rid, sent) => rid in s.callers && s.callers[rid].stage.Inserted?
    case WakeUp(rid) => rid in s.callers && s.callers[rid].stage == Waiting && s.callers[rid].awake
    case GiveUp(rid) => rid in s.callers && s.callers[rid].stage == Waiting && !s.callers[rid].awake
    case Return(rid) => rid in s.callers && s.callers[rid].stage.Popping?
  }

  function SetPhase(s: State, c: Conn, phase: Phase, jobs: seq<Job>): State
    requires c in s.conns
  {
    s.(conns := s.conns[c := s.conns[c].(phase := phase, jobs := jobs)])
  }

  function SetStage(s: State, rid: Rid, stage: Stage): State
    requires rid in s.callers
  {
    s.(callers := s.callers[rid := s.callers[rid].(stage := stage)])
  }

  /** What a woken caller takes out of its box. */
  function Read(box: Option<Reply>): Outcome {
    match box
    case None => EmptyBox
    case Some(reply) => Answered(reply)
  }

  /** One job's next half. A box belongs to a call the hub made, whoever still waits on it. */
  function Work(s: State, c: Conn): State
    requires c in s.conns && s.conns[c].jobs != []
  {
    var h := s.conns[c];
    var job := h.jobs[0];
    if job.rid !in s.callers then s
    else if !job.filled then
      s.(conns := s.conns[c := h.(jobs := [job.(filled := true)] + h.jobs[1..])],
         callers := s.callers[job.rid := s.callers[job.rid].(box := Some(job.reply))])
    else
      s.(conns := s.conns[c := h.(jobs := h.jobs[1..])],
         callers := s.callers[job.rid := s.callers[job.rid].(awake := true)])
  }

  function Step(s: State, e: Event): State
    requires Enabled(s, e)
  {
    match e
    case Accept(c) => s.(conns := s.conns[c := Handler("?", "", "", Greeting, [])])
    case Join(c, name, app, info) =>
      s.(t := Register(s.t, name, c, app, info),
         conns := s.conns[c := Handler(name, app, info, Serving, s.conns[c].jobs)],
         log := s.log + [Registration(name, c)])
    case Leave(c) =>
      var (t, registered) := Unregister(s.t, s.conns[c].name, c);
      SetPhase(s.(t := t), c, Left(registered), [])
    case AbortWaiting(c, doomed) =>
      SetPhase(s.(t := s.t.(pending := s.t.pending - WaitingFor(s.t, s.conns[c].name)),
                  aborts := s.aborts + [Registration(s.conns[c].name, c)]), c, Gone,
               seq(|doomed|, i requires 0 <= i < |doomed| => Job(doomed[i], Dropped, false)))
    case FindWaiting(c, reply) =>
      if reply.request in s.t.pending then SetPhase(s, c, Serving, [Job(reply.request, reply, false)]) else s
    case Advance(c) => Work(s, c)
    case LookUp(rid, target) =>
      var found := if target in s.t.peers then Some(s.t.peers[target]) else None;
      s.(callers := s.callers[rid := Caller(target, found, if found.Some? then LookedUp else Returned(NoPeer),
                                            None, false, 0)])
    case Insert(rid) =>
      s.(t := s.t.(pending := s.t.pending[rid := s.callers[rid].target]),
         callers := s.callers[rid := s.callers[rid].(stage := Inserted, since := |s.aborts|)])
    case Transmit(rid, sent) => SetStage(s, rid, if sent then Waiting else Popping(SendFailed))
    case WakeUp(rid) => SetStage(s, rid, Popping(Read(s.callers[rid].box)))
    case GiveUp(rid) => SetStage(s, rid, Popping(TimedOut))
    case Return(rid) =>
      SetStage(s.(t := s.t.(pending := s.t.pending - {rid})), rid, Returned(s.callers[rid].stage.outcome))
  }

  ghost predicate Legal(s: State, events: seq<Event>)
    decreases |events|
  {
    events == [] || (Enabled(s, events[0]) && Legal(Step(s, events[0]), events[1..]))
  }

  ghost function Run(s: State, events: seq<Event>): State
    requires Legal(s, events)
    decreases |events|
  {
    if events == [] then s else Run(Step(s, events[0]), events[1..])
  }

  // --------------------------------------------------------------- who holds a name

  function Newest(log: seq<Registration>, n: nat, name: string): Option<Conn>
    requires n <= |log|
  {
    if n == 0 then None
    else if log[n - 1].name == name then Some(log[n - 1].c)
    else Newest(log, n - 1, name)
  }

  /** The reference: the connection that registered the name last, unless it left. */
  function Holder(s: State, name: string): Option<Conn> {
    var newest := Newest(s.log, |s.log|, name);
    if newest.Some? && newest.value in s.conns && s.conns[newest.value].phase == Serving then newest else None
  }

  ghost predicate HeldBy(s: State, name: string, holder: Option<Conn>) {
    match holder
    case None => name !in s.t.peers && name !in s.t.apps && name !in s.t.infos
    case Some(c) =>
      && c in s.conns && s.conns[c].name == name
      && name in s.t.peers && s.t.peers[name] == c
      && name in s.t.apps && s.t.apps[name] == s.conns[c].app
      && name in s.t.infos && s.t.infos[name] == s.conns[c].info
  }

  ghost predicate LogInv(s: State) {
    && (forall i | 0 <= i < |s.log| ::
          && s.log[i].c in s.conns
          && s.conns[s.log[i].c].name == s.log[i].name
          && s.conns[s.log[i].c].phase != Greeting)
    && (forall name :: HeldBy(s, name, Holder(s, name)))
  }

  lemma {:induction false} NewestIsLogged(log: seq<Registration>, n: nat, name: string)
    requires n <= |log|
    ensures var c := Newest(log, n, name);
            c.Some? ==> exists i | 0 <= i < n :: log[i] == Registration(name, c.value)
  {
    if n > 0 && log[n - 1].name != name {
      NewestIsLogged(log, n - 1, name);
    }
  }

  lemma {:induction false} NewestPrefix(log: seq<Registration>, r: Registration, n: nat, name: string)
    requires n <= |log|
    ensures Newest(log + [r], n, name) == Newest(log, n, name)
  {
    if n > 0 {
      NewestPrefix(log, r, n - 1, name);
    }
  }

  /** Steps that touch neither the table nor any handler's standing. */
  ghost predicate SameStanding(s: State, t: State) {
    && t.log == s.log
    && t.t.peers == s.t.peers && t.t.apps == s.t.apps && t.t.infos == s.t.infos
    && (forall c | c in s.conns ::
          && c in t.conns
          && t.conns[c].name == s.conns[c].name && t.conns[c].app == s.conns[c].app
          && t.conns[c].info == s.conns[c].info
          && (t.conns[c].phase == Serving <==> s.conns[c].phase == Serving)
          && (t.conns[c].phase == Greeting ==> s.conns[c].phase == Greeting))
  }

  lemma SameStandingKeepsLog(s: State, t: State)
    requires LogInv(s) && SameStanding(s, t)
    ensures LogInv(t)
  {
    forall name
      ensures HeldBy(t, name, Holder(t, name))
    {
      NewestIsLogged(s.log, |s.log|, name);
      assert HeldBy(s, name, Holder(s, name));
      assert Holder(t, name) == Holder(s, name);
    }
  }

  lemma JoinKeepsLog(s: State, c: Conn, name: string, app: string, info: string)
    requires LogInv(s) && Enabled(s, Join(c, name, app, info))
    ensures LogInv(Step(s, Join(c, name, app, info)))
  {
    var t := Step(s, Join(c, name, app, info));
    forall m
      ensures HeldBy(t, m, Holder(t, m))
    {
      NewestPrefix(s.log, Registration(name, c), |s.log|, m);
      NewestIsLogged(s.log, |s.log|, m);
      assert HeldBy(s, m, Holder(s, m));
    }
  }

  lemma LeaveKeepsLog(s: State, c: Conn)
    requires LogInv(s) && Enabled(s, Leave(c))
    ensures LogInv(Step(s, Leave(c)))
  {
    var t := Step(s, Leave(c));
    var own := s.conns[c].name;
    NewestIsLogged(s.log, |s.log|, own);
    assert HeldBy(s, own, Holder(s, own));
    forall m
      ensures HeldBy(t, m, Holder(t, m))
    {
      NewestIsLogged(s.log, |s.log|, m);
      assert HeldBy(s, m, Holder(s, m));
    }
  }

  lemma StepKeepsLog(s: State, e: Event)
    requires LogInv(s) && Enabled(s, e)
    ensures LogInv(Step(s, e))
  {
    if e.Join? {
      JoinKeepsLog(s, e.c, e.name, e.app, e.info);
    } else if e.Leave? {
      LeaveKeepsLog(s, e.c);
    } else {
      OtherStepsKeepStanding(s, e);
      SameStandingKeepsLog(s, Step(s, e));
    }
  }

  lemma OtherStepsKeepStanding(s: State, e: Event)
    requires Enabled(s, e) && !e.Join? && !e.Leave?
    ensures SameStanding(s, Step(s, e))
  {
  }

  // ------------------------------------------------------------- who is still waiting

  predicate OwnOrDropped(rid: Rid, reply: Reply) {
    reply.Reply? ==> reply.request == rid
  }

  predicate SoundCaller(rid: Rid, caller: Caller) {
    && (caller.awake ==> caller.box.Some?)
    && (caller.box.Some? ==> OwnOrDropped(rid, caller.box.value))
    && SoundOutcome(rid, caller.stage)
  }

  predicate SoundOutcome(rid: Rid, stage: Stage) {
    match stage
    case Popping(outcome) => outcome != EmptyBox && (outcome.Answered? ==> OwnOrDropped(rid, outcome.reply))
    case Returned(outcome) => outcome != EmptyBox && (outcome.Answered? ==> OwnOrDropped(rid, outcome.reply))
    case LookedUp => true
    case Inserted => true
    case Waiting => true
  }

  predicate SoundJobs(callers: map<Rid, Caller>, jobs: seq<Job>) {
    forall i | 0 <= i < |jobs| ::
      && jobs[i].rid in callers
      && OwnOrDropped(jobs[i].rid, jobs[i].reply)
      && (jobs[i].filled ==> i == 0 && callers[jobs[i].rid].box.Some?)
  }

  predicate HasEntry(stage: Stage) {
    stage.Inserted? || stage.Waiting? || stage.Popping?
  }

  ghost predicate WaitInv(s: State) {
    && (forall rid | rid in s.t.pending ::
          && rid in s.callers && HasEntry(s.callers[rid].stage) && s.t.pending[rid] == s.callers[rid].target)
    && (forall rid | rid in s.callers :: SoundCaller(rid, s.callers[rid]))
    && (forall c | c in s.conns :: SoundJobs(s.callers, s.conns[c].jobs))
  }

  predicate IsCallerStep(e: Event) {
    e.LookUp? || e.Insert? || e.Transmit? || e.WakeUp? || e.GiveUp? || e.Return?
  }

  lemma CallerStepKeepsWait(s: State, e: Event)
    requires WaitInv(s) && Enabled(s, e) && IsCallerStep(e)
    ensures WaitInv(Step(s, e))
  {
    var t := Step(s, e);
    forall c | c in t.conns
      ensures SoundJobs(t.callers, t.conns[c].jobs)
    {
      assert SoundJobs(s.callers, s.conns[c].jobs);
    }
  }

  lemma ConnStepKeepsWait(s: State, e: Event)
    requires WaitInv(s) && Enabled(s, e) && (e.Accept? || e.Join? || e.Leave? || e.FindWaiting?)
    ensures WaitInv(Step(s, e))
  {
    var t := Step(s, e);
    forall c | c in t.conns
      ensures SoundJobs(t.callers, t.conns[c].jobs)
    {
      assert c in s.conns ==> SoundJobs(s.callers, s.conns[c].jobs);
    }
  }

  lemma AbortKeepsWait(s: State, c: Conn, doomed: seq<Rid>)
    requires WaitInv(s) && Enabled(s, AbortWaiting(c, doomed))
    ensures WaitInv(Step(s, AbortWaiting(c, doomed)))
  {
    var t := Step(s, AbortWaiting(c, doomed));
    assert forall i | 0 <= i < |doomed| :: doomed[i] in WaitingFor(s.t, s.conns[c].name);
    assert SoundJobs(t.callers, t.conns[c].jobs);
    assert forall d | d in t.conns && d != c :: SoundJobs(t.callers, s.conns[d].jobs);
  }

  lemma StepKeepsWait(s: State, e: Event)
    requires WaitInv(s) && Enabled(s, e)
    ensures WaitInv(Step(s, e))
  {
    if e.Advance? {
      WorkKeepsWait(s, e.c);
    } else if e.AbortWaiting? {
      AbortKeepsWait(s, e.c, e.doomed);
    } else if IsCallerStep(e) {
      CallerStepKeepsWait(s, e);
    } else {
      ConnStepKeepsWait(s, e);
    }
  }

  lemma WorkKeepsWait(s: State, c: Conn)
    requires WaitInv(s) && Enabled(s, Advance(c))
    ensures WaitInv(Work(s, c))
  {
    var t := Work(s, c);
    assert SoundJobs(s.callers, s.conns[c].jobs);
    forall d | d in t.conns
      ensures SoundJobs(t.callers, t.conns[d].jobs)
    {
      assert SoundJobs(s.callers, s.conns[d].jobs);
    }
  }

  lemma {:induction false} RunKeepsInv(s: State, events: seq<Event>)
    requires LogInv(s) && WaitInv(s) && Legal(s, events)
    ensures LogInv(Run(s, events)) && WaitInv(Run(s, events))
    decreases |events|
  {
    if events != [] {
      StepKeepsLog(s, events[0]);
      StepKeepsWait(s, events[0]);
      RunKeepsInv(Step(s, events[0]), events[1..]);
    }
  }

  /** Over every interleaving, a name maps to the connection that registered it last unless that
      one left, together with what that connection announced; the three tables have the same keys. */
  lemma NewestConnectionHoldsName(events: seq<Event>)
    requires Legal(INIT, events)
    ensures var s := Run(INIT, events);
            && (forall name :: HeldBy(s, name, Holder(s, name)))
            && s.t.peers.Keys == s.t.apps.Keys == s.t.infos.Keys
  {
    RunKeepsInv(INIT, events);
    var s := Run(INIT, events);
    assert forall name :: HeldBy(s, name, Holder(s, name)) && (name in s.t.peers <==> name in s.t.apps)
                          && (name in s.t.peers <==> name in s.t.infos);
  }

  /** A connection that was replaced takes nothing with it when it goes. */
  lemma OldExitKeepsNewer(events: seq<Event>, leaving: Conn, newer: Conn, name: string)
    requires Legal(INIT, events)
    requires var s := Run(INIT, events);
             Enabled(s, Leave(leaving)) && Holder(s, name) == Some(newer) && newer != leaving
    ensures var s := Run(INIT, events);
            var t := Step(s, Leave(leaving));
            name in t.t.peers && t.t.peers[name] == newer && Holder(t, name) == Some(newer)
  {
    RunKeepsInv(INIT, events);
    var s := Run(INIT, events);
    assert HeldBy(s, name, Holder(s, name));
  }

  /** A woken caller always finds a reply, and it is to its own request unless its peer dropped. */
  lemma WokenFindsOwnReply(events: seq<Event>, rid: Rid)
    requires Legal(INIT, events)
    requires rid in Run(INIT, events).callers
    ensures var caller := Run(INIT, events).callers[rid];
            && (caller.awake ==> caller.box.Some?)
            && SoundOutcome(rid, caller.stage)
  {
    RunKeepsInv(INIT, events);
  }

  /** A caller that is back is no longer waited for. */
  lemma ReturnedIsNotPending(events: seq<Event>, rid: Rid)
    requires Legal(INIT, events)
    requires rid in Run(INIT, events).callers && Run(INIT, events).callers[rid].stage.Returned?
    ensures rid !in Run(INIT, events).t.pending
  {
    RunKeepsInv(INIT, events);
  }

  // ------------------------------------------------------------------ dropped callers

  /** A peer of that name registered, left and had its callers woken. */
  ghost predicate PeerGone(s: State, name: string) {
    exists c | c in s.conns :: s.conns[c].phase == Gone && s.conns[c].name == name
  }

  ghost predicate TrueToBox(s: State, rid: Rid) {
    rid in s.callers && s.callers[rid].box == Some(Dropped) ==> PeerGone(s, s.callers[rid].target)
  }

  ghost predicate TrueToJobs(s: State, c: Conn) {
    c in s.conns ==>
      forall i | 0 <= i < |s.conns[c].jobs| && s.conns[c].jobs[i].reply.Dropped? ::
        && s.conns[c].phase == Gone
        && s.conns[c].jobs[i].rid in s.callers
        && s.callers[s.conns[c].jobs[i].rid].target == s.conns[c].name
  }

  ghost predicate DropInv(s: State) {
    && (forall rid :: TrueToBox(s, rid))
    && (forall c :: TrueToJobs(s, c))
  }

  lemma GoneStaysGone(s: State, e: Event, name: string)
    requires Enabled(s, e) && PeerGone(s, name)
    ensures PeerGone(Step(s, e), name)
  {
    var c :| c in s.conns && s.conns[c].phase == Gone && s.conns[c].name == name;
    var t := Step(s, e);
    assert c in t.conns && t.conns[c].phase == Gone && t.conns[c].name == name;
  }

  lemma BoxesStayTrue(s: State, e: Event, rid: Rid)
    requires DropInv(s) && Enabled(s, e)
    ensures TrueToBox(Step(s, e), rid)
  {
    var t := Step(s, e);
    if rid in t.callers && t.callers[rid].box == Some(Dropped) {
      if rid in s.callers && s.callers[rid].box == Some(Dropped) {
        assert TrueToBox(s, rid);
        GoneStaysGone(s, e, s.callers[rid].target);
      } else {
        assert e.Advance?;
        assert TrueToJobs(s, e.c);
        assert PeerGone(s, s.callers[rid].target);
        GoneStaysGone(s, e, s.callers[rid].target);
      }
    }
  }

  lemma JobsStayTrue(s: State, e: Event, c: Conn)
    requires DropInv(s) && WaitInv(s) && Enabled(s, e)
    ensures TrueToJobs(Step(s, e), c)
  {
    assert TrueToJobs(s, c);
    if e.AbortWaiting? {
      assert forall i | 0 <= i < |e.doomed| :: e.doomed[i] in WaitingFor(s.t, s.conns[e.c].name);
    }
  }

  lemma {:induction false} RunKeepsDrops(s: State, events: seq<Event>)
    requires WaitInv(s) && DropInv(s) && Legal(s, events)
    ensures DropInv(Run(s, events))
    decreases |events|
  {
    if events != [] {
      var t := Step(s, events[0]);
      forall rid ensures TrueToBox(t, rid) { BoxesStayTrue(s, events[0], rid); }
      forall c ensures TrueToJobs(t, c) { JobsStayTrue(s, events[0], c); }
      StepKeepsWait(s, events[0]);
      RunKeepsDrops(t, events[1..]);
    }
  }

  /** A caller is told its peer dropped only when a connection under that name came and went. */
  lemma DroppedMeansGone(events: seq<Event>, rid: Rid)
    requires Legal(INIT, events)
    requires rid in Run(INIT, events).callers && Run(INIT, events).callers[rid].box == Some(Dropped)
    ensures PeerGone(Run(INIT, events), Run(INIT, events).callers[rid].target)
  {
    RunKeepsDrops(INIT, events);
    assert TrueToBox(Run(INIT, events), rid);
  }

  // ------------------------------------------------------------------- who is woken

  /** A woken caller that reads its box comes back with a reply: its own, or that its peer dropped. */
  lemma WakeUpFindsReply(events: seq<Event>, rid: Rid)
    requires Legal(INIT, events) && Enabled(Run(INIT, events), WakeUp(rid))
    ensures var stage := Step(Run(INIT, events), WakeUp(rid)).callers[rid].stage;
            stage.Popping? && stage.outcome.Answered? && OwnOrDropped(rid, stage.outcome.reply)
  {
    RunKeepsInv(INIT, events);
  }

  function Advances(c: Conn, n: nat): seq<Event> {
    if n == 0 then [] else [Advance(c)] + Advances(c, n - 1)
  }

  ghost predicate JobsReady(s: State, c: Conn, jobs: seq<Job>) {
    && c in s.conns && s.conns[c].jobs == jobs
    && forall i | 0 <= i < |jobs| :: jobs[i].rid in s.callers && !jobs[i].filled
  }

  ghost predicate AwakeIn(s: State, rid: Rid) {
    rid in s.callers && s.callers[rid].awake
  }

  lemma OneJob(s: State, c: Conn, jobs: seq<Job>) returns (t: State)
    requires JobsReady(s, c, jobs) && jobs != []
    ensures Enabled(s, Advance(c)) && Enabled(Step(s, Advance(c)), Advance(c))
    ensures t == Step(Step(s, Advance(c)), Advance(c))
    ensures JobsReady(t, c, jobs[1..]) && AwakeIn(t, jobs[0].rid)
    ensures forall rid | AwakeIn(s, rid) :: AwakeIn(t, rid)
  {
    t := Step(Step(s, Advance(c)), Advance(c));
    assert ([jobs[0].(filled := true)] + jobs[1..])[1..] == jobs[1..];
  }

  /** A thread that works off its list wakes every caller on it. */
  lemma {:induction false} JobsWakeAll(s: State, c: Conn, jobs: seq<Job>)
    requires JobsReady(s, c, jobs)
    ensures Legal(s, Advances(c, 2 * |jobs|))
    ensures var t := Run(s, Advances(c, 2 * |jobs|));
            && (forall i | 0 <= i < |jobs| :: AwakeIn(t, jobs[i].rid))
            && (forall rid | AwakeIn(s, rid) :: AwakeIn(t, rid))
    decreases |jobs|
  {
    if jobs != [] {
      var t := OneJob(s, c, jobs);
      JobsWakeAll(t, c, jobs[1..]);
      var n := 2 * |jobs|;
      assert Advances(c, n)[1..] == Advances(c, n - 1) && Advances(c, n - 1)[1..] == Advances(c, n - 2);
      assert forall i | 1 <= i < |jobs| :: jobs[i] == jobs[1..][i - 1];
    }
  }

  /** When a peer has left, its thread takes everybody who waits for it off the list and wakes them. */
  lemma LeavingPeerWakesAll(s: State, c: Conn, doomed: seq<Rid>)
    requires WaitInv(s) && Enabled(s, AbortWaiting(c, doomed))
    ensures var t := Step(s, AbortWaiting(c, doomed));
            && Legal(t, Advances(c, 2 * |doomed|))
            && forall rid | rid in WaitingFor(s.t, s.conns[c].name) ::
                 AwakeIn(Run(t, Advances(c, 2 * |doomed|)), rid)
  {
    var t := Step(s, AbortWaiting(c, doomed));
    var jobs := t.conns[c].jobs;
    assert forall i | 0 <= i < |doomed| :: doomed[i] in WaitingFor(s.t, s.conns[c].name);
    JobsWakeAll(t, c, jobs);
    var u := Run(t, Advances(c, 2 * |doomed|));
    forall rid | rid in WaitingFor(s.t, s.conns[c].name)
      ensures AwakeIn(u, rid)
    {
      var i :| 0 <= i < |doomed| && doomed[i] == rid;
      assert jobs[i].rid == rid;
    }
  }

  // --------------------------------------------------------------- the tables in place

  class Peers {
    var peers: map<string, Conn>
    var apps: map<string, string>
    var infos: map<string, string>
    var pending: map<Rid, string>

    ghost function View(): Tables
      reads this
    {
      Tables(peers, apps, infos, pending)
    }

    constructor ()
      ensures View() == INIT.t
    {
      peers, apps, infos, pending := map[], map[], map[], map[];
    }

    method RegisterPeer(name: string, c: Conn, app: string, info: string) returns (previous: Option<Conn>)
      modifies this
      ensures View() == Register(old(View()), name, c, app, info)
      ensures previous == if name in old(peers) then Some(old(peers[name])) else None
    {
      previous := if name in peers then Some(peers[name]) else None;
      peers := peers[name := c];
      apps := apps[name := app];
      infos := infos[name := info];
    }

    method UnregisterPeer(name: string, c: Conn) returns (registered: bool)
      modifies this
      ensures (View(), registered) == Unregister(old(View()), name, c)
    {
      registered := name in peers && peers[name] == c;
      if registered {
        peers := peers - {name};
        apps := apps - {name};
        infos := infos - {name};
      }
    }

    /** The calls waiting for a peer, or for anybody. */
    method Doomed(target: Option<string>) returns (doomed: seq<Rid>)
      ensures Lists(doomed, if target.None? then pending.Keys else WaitingFor(View(), target.value))
    {
      doomed := [];
      var left := pending.Keys;
      while left != {}
        invariant left <= pending.Keys
        invariant forall rid :: rid in doomed <==>
                    (rid in pending && rid !in left && (target.None? || pending[rid] == target.value))
        invariant forall i, j | 0 <= i < j < |doomed| :: doomed[i] != doomed[j]
        decreases |left|
      {
        var rid :| rid in left;
        left := left - {rid};
        if target.None? || pending[rid] == target.value {
          doomed := doomed + [rid];
        }
      }
    }

    /** Takes them off the list; waking them comes after. */
    method AbortPending(target: Option<string>) returns (doomed: seq<Rid>)
      modifies `pending
      ensures var all := if target.None? then old(pending).Keys else WaitingFor(old(View()), target.value);
              Lists(doomed, all) && pending == old(pending) - all
    {
      doomed := Doomed(target);
      var k := 0;
      while k < |doomed|
        invariant 0 <= k <= |doomed|
        invariant forall rid :: rid in pending <==> rid in old(pending) && rid !in doomed[..k]
        invariant forall rid | rid in pending :: pending[rid] == old(pending)[rid]
      {
        pending := pending - {doomed[k]};
        k := k + 1;
      }
      assert doomed[..k] == doomed;
    }

    /** Stopping the hub forgets the connections but not what they announced. */
    method Stop() returns (closing: set<Conn>)
      modifies `peers
      ensures closing == old(peers.Values)
      ensures View() == old(View()).(peers := map[])
      ensures old(peers.Keys == apps.Keys) ==> (peers.Keys == apps.Keys <==> old(peers) == map[])
    {
      closing := peers.Values;
      peers := map[];
    }
  }
}
