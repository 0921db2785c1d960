/** What a waiting call of the hub comes back with, read off the run. */
module PeerReplies {
  import opened Common
  import opened PeerTable
  import opened PeerAborts

  // ---------------------------------------------------------------------- its outcome

  /** The step decides what the call comes back with: there is no such peer, the frame cannot be sent, the
      time is up, or the caller is woken and takes what is in its box. */
  function Decides(s: State, e: Event, rid: Rid): Option<Outcome> {
    match e
    case LookUp(id, target) => if id == rid && target !in s.t.peers then Some(NoPeer) else None
    case Transmit(id, sent) => if id == rid && !sent then Some(SendFailed) else None
    case GiveUp(id) => if id == rid then Some(TimedOut) else None
    case WakeUp(id) =>
      if id != rid || rid !in s.callers then None
      else if s.callers[rid].box.Some? then Some(Answered(s.callers[rid].box.value)) else Some(EmptyBox)
    case _ => None
  }

  ghost function Decided(s: State, events: seq<Event>, rid: Rid, before: Option<Outcome>): Option<Outcome>
    requires Legal(s, events)
    decreases |events|
  {
    if events == [] then before
    else
      var now := Decides(s, events[0], rid);
      Decided(Step(s, events[0]), events[1..], rid, if now.Some? then now else before)
  }

  function OutcomeOf(s: State, rid: Rid): Option<Outcome> {
    if rid in s.callers && s.callers[rid].stage.Popping? then Some(s.callers[rid].stage.outcome)
    else if rid in s.callers && s.callers[rid].stage.Returned? then Some(s.callers[rid].stage.outcome)
    else None
  }

  lemma StepDecides(s: State, e: Event, rid: Rid)
    requires Enabled(s, e)
    ensures OutcomeOf(Step(s, e), rid) ==
            if Decides(s, e, rid).Some? then Decides(s, e, rid) else OutcomeOf(s, rid)
  {
  }

  lemma {:induction false} RunDecides(s: State, events: seq<Event>, rid: Rid)
    requires Legal(s, events)
    ensures OutcomeOf(Run(s, events), rid) == Decided(s, events, rid, OutcomeOf(s, rid))
    decreases |events|
  {
    if events != [] {
      StepDecides(s, events[0], rid);
      RunDecides(Step(s, events[0]), events[1..], rid);
    }
  }

  /** Over every interleaving a call comes back with what was decided, and only if something was; a call
      that was woken comes back with what was in its box. */
  lemma ReturnsWhatWasDecided(events: seq<Event>, rid: Rid)
    requires Legal(INIT, events)
    ensures OutcomeOf(Run(INIT, events), rid) == Decided(INIT, events, rid, None)
  {
    RunDecides(INIT, events, rid);
  }

  // ----------------------------------------------------------------- what is in a box

  /** The replies that came for a call that was listed. */
  ghost function Came(s: State, events: seq<Event>): set<Reply>
    requires Legal(s, events)
    decreases |events|
  {
    if events == [] then {}
    else
      var e := events[0];
      (if e.FindWaiting? && e.reply.request in s.t.pending then {e.reply} else {}) + Came(Step(s, e), events[1..])
  }

  /** Boxes, and threads about to fill them, hold nothing but these, or that the peer dropped. */
  ghost predicate HoldOnly(s: State, came: set<Reply>) {
    && (forall rid | rid in s.callers && s.callers[rid].box.Some? :: s.callers[rid].box.value in came + {Dropped})
    && (forall c, i | c in s.conns && 0 <= i < |s.conns[c].jobs| :: s.conns[c].jobs[i].reply in came + {Dropped})
  }

  lemma AbortHolds(s: State, c: Conn, doomed: seq<Rid>, came: set<Reply>)
    requires Enabled(s, AbortWaiting(c, doomed)) && HoldOnly(s, came)
    ensures HoldOnly(Step(s, AbortWaiting(c, doomed)), came)
  {
  }

  lemma CallerStepHolds(s: State, e: Event, came: set<Reply>)
    requires Enabled(s, e) && HoldOnly(s, came) && IsCallerStep(e)
    ensures HoldOnly(Step(s, e), came)
  {
  }

  lemma StepHolds(s: State, e: Event, came: set<Reply>)
    requires Enabled(s, e) && HoldOnly(s, came)
    ensures HoldOnly(Step(s, e), came + if e.FindWaiting? && e.reply.request in s.t.pending then {e.reply} else {})
  {
    assert came + {} == came;
    if e.AbortWaiting? {
      AbortHolds(s, e.c, e.doomed, came);
    } else if IsCallerStep(e) {
      CallerStepHolds(s, e, came);
    }
  }

  lemma {:induction false} RunHolds(s: State, events: seq<Event>, came: set<Reply>)
    requires Legal(s, events) && HoldOnly(s, came)
    ensures HoldOnly(Run(s, events), came + Came(s, events))
    decreases |events|
  {
    if events == [] {
      assert came + {} == came;
    } else {
      var e := events[0];
      var more := if e.FindWaiting? && e.reply.request in s.t.pending then {e.reply} else {};
      StepHolds(s, e, came);
      RunHolds(Step(s, e), events[1..], came + more);
      assert (came + more) + Came(Step(s, e), events[1..]) == came + Came(s, events);
    }
  }

  /** Over every interleaving what a caller finds in its box came in for it while it was listed, word for
      word, or it is told that its peer dropped, and then one of that name did. */
  lemma BoxHoldsWhatCame(events: seq<Event>, rid: Rid)
    requires Legal(INIT, events)
    requires var s := Run(INIT, events); rid in s.callers && s.callers[rid].box.Some?
    ensures var s := Run(INIT, events);
            var reply := s.callers[rid].box.value;
            if reply.Dropped? then PeerGone(s, s.callers[rid].target)
            else reply.request == rid && reply in Came(INIT, events)
  {
    RunHolds(INIT, events, {});
    assert {} + Came(INIT, events) == Came(INIT, events);
    WokenInvariant(events, rid);
    if Run(INIT, events).callers[rid].box == Some(Dropped) {
      DroppedMeansGone(events, rid);
    }
  }

  lemma WokenInvariant(events: seq<Event>, rid: Rid)
    requires Legal(INIT, events) && rid in Run(INIT, events).callers
    ensures SoundCaller(rid, Run(INIT, events).callers[rid])
  {
    RunKeepsInv(INIT, events);
  }

  // ------------------------------------------------------------- and that it gets there

  lemma AwakeStays(s: State, e: Event, rid: Rid)
    requires Enabled(s, e) && AwakeIn(s, rid)
    ensures AwakeIn(Step(s, e), rid)
  {
  }

  lemma CallerStays(s: State, e: Event, rid: Rid)
    requires Enabled(s, e) && rid in s.callers
    ensures rid in Step(s, e).callers
  {
  }

  lemma {:induction false} StaysWoken(s: State, events: seq<Event>, rid: Rid)
    requires AbortInv(s) && Legal(s, events) && rid in s.callers && (JobFor(s, rid) || AwakeIn(s, rid))
    ensures JobFor(Run(s, events), rid) || AwakeIn(Run(s, events), rid)
    decreases |events|
  {
    if events != [] {
      var e := events[0];
      CallerStays(s, e, rid);
      if AwakeIn(s, rid) {
        AwakeStays(s, e, rid);
      } else {
        JobStays(s, e, rid);
      }
      StepKeepsAborts(s, e);
      StaysWoken(Step(s, e), events[1..], rid);
    }
  }

  /** Over every interleaving: from when its reply has come for a listed call on, the call is awake, or the
      thread that brought it, or one that came before, is still about to wake it. */
  lemma ReplyGetsThere(before: seq<Event>, c: Conn, reply: Reply, behind: seq<Event>)
    requires Legal(INIT, before) && Enabled(Run(INIT, before), FindWaiting(c, reply))
    requires reply.request in Run(INIT, before).t.pending
    requires Legal(Step(Run(INIT, before), FindWaiting(c, reply)), behind)
    ensures var s := Step(Run(INIT, before), FindWaiting(c, reply));
            && s.conns[c].jobs == [Job(reply.request, reply, false)]
            && (JobFor(Run(s, behind), reply.request) || AwakeIn(Run(s, behind), reply.request))
  {
    RunKeepsAborts(INIT, before);
    var s := Run(INIT, before);
    var t := Step(s, FindWaiting(c, reply));
    StepKeepsAborts(s, FindWaiting(c, reply));
    assert t.conns[c].jobs[0].rid == reply.request && Wakes(t.conns[c].jobs, reply.request);
    StaysWoken(t, behind, reply.request);
  }

  /** From the reply's coming to the caller's return, with nothing between. */
  function Served(c: Conn, reply: Reply, rid: Rid): seq<Event> {
    [FindWaiting(c, reply)] + ([Advance(c)] + ([Advance(c)] + ([WakeUp(rid)] + ([Return(rid)] + []))))
  }

  lemma Then(s: State, e: Event, rest: seq<Event>, last: State)
    requires Enabled(s, e) && Legal(Step(s, e), rest) && Run(Step(s, e), rest) == last
    ensures Legal(s, [e] + rest) && Run(s, [e] + rest) == last
  {
    assert ([e] + rest)[1..] == rest;
  }

  lemma BoxIsFilled(s: State, c: Conn, reply: Reply, rid: Rid) returns (t: State)
    requires Enabled(s, FindWaiting(c, reply)) && rid == reply.request && rid in s.t.pending && rid in s.callers
    ensures var s1 := Step(s, FindWaiting(c, reply));
            Enabled(s1, Advance(c)) && Enabled(Step(s1, Advance(c)), Advance(c))
            && t == Step(Step(s1, Advance(c)), Advance(c))
    ensures rid in t.callers && t.callers[rid] == s.callers[rid].(box := Some(reply), awake := true)
  {
    t := Step(Step(Step(s, FindWaiting(c, reply)), Advance(c)), Advance(c));
  }

  /** Left to itself the caller then comes back with the reply, and is off the list. */
  lemma ReplyIsReturned(s: State, c: Conn, reply: Reply, rid: Rid)
    requires Enabled(s, FindWaiting(c, reply)) && rid == reply.request && rid in s.t.pending
    requires rid in s.callers && s.callers[rid].stage == Waiting
    ensures Legal(s, Served(c, reply, rid))
    ensures var t := Run(s, Served(c, reply, rid));
            OutcomeOf(t, rid) == Some(Answered(reply)) && rid !in t.t.pending
  {
    var s1 := Step(s, FindWaiting(c, reply));
    var t := BoxIsFilled(s, c, reply, rid);
    var u := Step(t, WakeUp(rid));
    var v := Step(u, Return(rid));
    Then(u, Return(rid), [], v);
    Then(t, WakeUp(rid), [Return(rid)] + [], v);
    Then(Step(s1, Advance(c)), Advance(c), [WakeUp(rid)] + ([Return(rid)] + []), v);
    Then(s1, Advance(c), [Advance(c)] + ([WakeUp(rid)] + ([Return(rid)] + [])), v);
    Then(s, FindWaiting(c, reply), [Advance(c)] + ([Advance(c)] + ([WakeUp(rid)] + ([Return(rid)] + []))), v);
  }
}
