/** What goes wrong on a shared conversation, as runs of `SharedConversation` from its start. */
module SharedTraces {
  import opened Common
  import opened Messages
  import opened SharedConversation
  import O = Ownership
  import R = RoundRun
  import Merge

  // ------------------------------------------------------------------- building traces

  lemma ThenStep(w: World, a: seq<Step>, b: seq<Step>)
    requires a != [] && Enabled(w, a[0]) && Legal(Apply(w, a[0]), a[1..] + b)
    ensures Legal(w, a + b) && After(w, a + b) == After(Apply(w, a[0]), a[1..] + b)
  {
    assert (a + b)[1..] == a[1..] + b;
  }

  lemma {:induction false} Then(w: World, a: seq<Step>, b: seq<Step>)
    requires Legal(w, a) && Legal(After(w, a), b)
    ensures Legal(w, a + b) && After(w, a + b) == After(After(w, a), b)
    decreases |a|
  {
    if a == [] {
      assert a + b == b;
    } else {
      Then(Apply(w, a[0]), a[1..], b);
      ThenStep(w, a, b);
    }
  }

  lemma FirstIsNotStale(w: World, a: seq<Step>)
    requires a != [] && Legal(w, a) && NoStaleRelease(w, a)
    ensures !Stale(w, a[0]) && NoStaleRelease(Apply(w, a[0]), a[1..])
  {
  }

  lemma NoStaleStep(w: World, a: seq<Step>, b: seq<Step>)
    requires a != [] && Legal(w, a + b) && Enabled(w, a[0]) && !Stale(w, a[0])
    requires Legal(Apply(w, a[0]), a[1..] + b) && NoStaleRelease(Apply(w, a[0]), a[1..] + b)
    ensures NoStaleRelease(w, a + b)
  {
    assert (a + b)[1..] == a[1..] + b;
  }

  lemma {:induction false} ThenNoStaleRelease(w: World, a: seq<Step>, b: seq<Step>)
    requires Legal(w, a) && Legal(After(w, a), b) && Legal(w, a + b)
    requires NoStaleRelease(w, a) && NoStaleRelease(After(w, a), b)
    ensures NoStaleRelease(w, a + b)
    decreases |a|
  {
    if a == [] {
      assert a + b == b;
    } else {
      var v := Apply(w, a[0]);
      FirstIsNotStale(w, a);
      Then(v, a[1..], b);
      ThenNoStaleRelease(v, a[1..], b);
      NoStaleStep(w, a, b);
    }
  }

  ghost predicate Unfailing(steps: seq<Step>) {
    forall e | e in steps && e.Run? :: !e.l.Fail?
  }

  lemma Join(w: World, a: seq<Step>, b: seq<Step>) returns (steps: seq<Step>)
    requires Legal(w, a) && Legal(After(w, a), b) && Unfailing(a) && Unfailing(b)
    ensures Legal(w, steps) && After(w, steps) == After(After(w, a), b) && Unfailing(steps) && steps == a + b
    ensures NoStaleRelease(w, a) && NoStaleRelease(After(w, a), b) ==> NoStaleRelease(w, steps)
  {
    Then(w, a, b);
    if NoStaleRelease(w, a) && NoStaleRelease(After(w, a), b) {
      ThenNoStaleRelease(w, a, b);
    }
    steps := a + b;
  }

  lemma One(w: World, e: Step)
    requires Enabled(w, e)
    ensures Legal(w, [e]) && After(w, [e]) == Apply(w, e)
    ensures NoStaleRelease(w, [e]) <==> !Stale(w, e)
  {
    assert [e][1..] == [];
  }

  lemma Extend(w: World, steps: seq<Step>, e: Step) returns (longer: seq<Step>)
    requires Legal(w, steps) && Enabled(After(w, steps), e) && Unfailing(steps) && !(e.Run? && e.l.Fail?)
    ensures Legal(w, longer) && After(w, longer) == Apply(After(w, steps), e) && Unfailing(longer)
    ensures longer == steps + [e]
    ensures NoStaleRelease(w, steps) && !Stale(After(w, steps), e) ==> NoStaleRelease(w, longer)
  {
    One(After(w, steps), e);
    longer := Join(w, steps, [e]);
  }

  /** Nothing but this thread's place and phase and the shared state changes. */
  ghost predicate OthersStand(w: World, v: World, t: Tid) {
    && (forall u: Tid | u != t :: O.At(v.o, u) == O.At(w.o, u) && Place(v, u) == Place(w, u))
    && v.holder == w.holder && v.bound == w.bound && v.conv.control.Idle?
  }

  /** The rest of a round without tool calls. */
  function ToTheEnd(reply: Message): seq<R.Label> {
    R.ToAnswer(reply) + ([R.Announce] + ([R.MergeNow] + ([R.Loop] + ([R.ValidateEnd] + []))))
  }

  /** Steps a thread makes inside `response_ai`. */
  ghost predicate Inside(run: seq<R.Label>) {
    forall l | l in run :: MayRun(O.InRound(false), l) && !l.Fail?
  }

  lemma OpeningInside()
    ensures Inside(R.Opening())
  {
  }

  lemma AnswerInside(reply: Message)
    ensures Inside(R.ToAnswer(reply))
  {
    OpeningInside();
    assert Inside([R.Reply(reply)] + ([R.CheckReply] + ([R.Append] + [])));
  }

  lemma EndInside(reply: Message)
    ensures Inside(ToTheEnd(reply))
  {
    AnswerInside(reply);
    assert Inside([R.Announce] + ([R.MergeNow] + ([R.Loop] + ([R.ValidateEnd] + []))));
  }

  function Lifted(t: Tid, run: seq<R.Label>): seq<Step> {
    if run == [] then [] else [Run(t, run[0])] + Lifted(t, run[1..])
  }

  /** A run of the single owner's machine, made by one thread inside `response_ai`. */
  lemma {:induction false} Lift(w: World, t: Tid, run: seq<R.Label>)
    requires w.holder.None? && w.conv.control.Idle? && R.Legal(Seen(w, t), run)
    requires O.At(w.o, t).InRound? && Inside(run)
    ensures Legal(w, Lifted(t, run)) && NoStaleRelease(w, Lifted(t, run)) && Unfailing(Lifted(t, run))
    ensures var v := After(w, Lifted(t, run));
            v.o == w.o && OthersStand(w, v, t) && Seen(v, t) == R.After(Seen(w, t), run)
    decreases |run|
  {
    if run != [] {
      var e := Run(t, run[0]);
      assert run[0] in run;
      assert Seen(Apply(w, e), t) == R.Apply(Seen(w, t), run[0]);
      Lift(Apply(w, e), t, run[1..]);
      assert ([e] + Lifted(t, run[1..]))[1..] == Lifted(t, run[1..]);
    }
  }

  ghost predicate FreeFor(w: World, t: Tid) {
    && O.At(w.o, t).Unborn? && Place(w, t).Idle? && w.holder.None? && w.conv.control.Idle?
    && w.o.flags == O.Flags(false, true, [])
  }

  lemma Claims(w: World, t: Tid, ask: O.Ask) returns (steps: seq<Step>)
    requires FreeFor(w, t)
    ensures Legal(w, steps) && NoStaleRelease(w, steps) && Unfailing(steps)
    ensures var v := After(w, steps);
            && OthersStand(w, v, t) && v.o.flags == O.Flags(true, false, []) && O.At(v.o, t) == O.Owner([ask])
            && v.conv == w.conv.BeginRound() && Place(v, t).Claimed?
  {
    steps := Extend(w, [], Own(t, O.Arrive(ask)));
    steps := Extend(w, steps, Own(t, O.TryClaim));
  }

  lemma Enters(w: World, t: Tid, question: Message) returns (steps: seq<Step>)
    requires O.At(w.o, t).Owner? && w.o.flags == O.Flags(true, false, []) && w.holder.None?
    requires w.conv.control.Idle? && Place(w, t).Claimed? && question.role == User
    ensures Legal(w, steps) && NoStaleRelease(w, steps) && Unfailing(steps)
    ensures var v := After(w, steps);
            && OthersStand(w, v, t) && v.o.flags == w.o.flags && O.At(v.o, t) == O.InRound(false)
            && v.conv == w.conv.(history := w.conv.history + [question]) && Place(v, t).Claimed?
  {
    steps := Extend(w, [], Run(t, R.Write(question)));
    steps := Extend(w, steps, Own(t, O.EnterResponse));
  }

  /** An asker that finds the conversation free claims it, writes its question and enters the round. */
  lemma Starts(w: World, t: Tid, ask: O.Ask, question: Message) returns (steps: seq<Step>)
    requires FreeFor(w, t) && question.role == User
    ensures Legal(w, steps) && NoStaleRelease(w, steps) && Unfailing(steps)
    ensures var v := After(w, steps);
            && OthersStand(w, v, t) && v.o.flags == O.Flags(true, false, []) && O.At(v.o, t) == O.InRound(false)
            && Seen(v, t) == w.conv.BeginRound().(control := R.Claimed, history := w.conv.history + [question])
  {
    steps := Claims(w, t, ask);
    var more := Enters(After(w, steps), t, question);
    steps := Join(w, steps, more);
  }

  lemma AnswerIsMerged(s: R.State)
    requires s.control.Appended? && s.control.reply.calls == [] && R.NothingWaits(s)
    ensures R.Enabled(s, R.Announce) && R.Enabled(R.Apply(s, R.Announce), R.MergeNow)
    ensures var t := R.Apply(R.Apply(s, R.Announce), R.MergeNow);
            t.control == R.PostCheck(false, R.Free) && R.NothingWaits(t)
  {
  }

  lemma CheckedIsDone(s: R.State)
    requires s.control == R.PostCheck(false, R.Free) && R.NothingWaits(s)
    ensures R.Legal(s, [R.Loop] + ([R.ValidateEnd] + []))
    ensures var t := R.After(s, [R.Loop] + ([R.ValidateEnd] + []));
            t.control == R.Finished(R.Done) && R.NothingWaits(t)
  {
    var s4 := R.Apply(s, R.Loop);
    R.LegalStep(s4, R.ValidateEnd, [], R.Apply(s4, R.ValidateEnd));
    R.LegalStep(s, R.Loop, [R.ValidateEnd] + [], R.Apply(s4, R.ValidateEnd));
  }

  lemma RoundEnds(s: R.State) returns (rest: seq<R.Label>)
    requires s.control.Appended? && s.control.reply.calls == [] && R.NothingWaits(s)
    ensures rest == [R.Announce] + ([R.MergeNow] + ([R.Loop] + ([R.ValidateEnd] + [])))
    ensures R.Legal(s, rest)
    ensures var t := R.After(s, rest); t.control == R.Finished(R.Done) && R.NothingWaits(t)
  {
    AnswerIsMerged(s);
    var s2 := R.Apply(s, R.Announce);
    var s3 := R.Apply(s2, R.MergeNow);
    var last := [R.Loop] + ([R.ValidateEnd] + []);
    CheckedIsDone(s3);
    R.LegalStep(s2, R.MergeNow, last, R.After(s3, last));
    R.LegalStep(s, R.Announce, [R.MergeNow] + last, R.After(s3, last));
    rest := [R.Announce] + ([R.MergeNow] + last);
  }

  lemma RoundDone(s: R.State, reply: Message)
    requires s.control.Claimed? && R.NothingWaits(s) && reply.role == Assistant && reply.calls == []
    ensures R.Legal(s, ToTheEnd(reply))
    ensures var t := R.After(s, ToTheEnd(reply)); t.control == R.Finished(R.Done) && R.NothingWaits(t)
  {
    R.AnswerStored(s, reply);
    var rest := RoundEnds(R.After(s, R.ToAnswer(reply)));
    R.LegalConcat(s, R.ToAnswer(reply), rest);
  }

  lemma Leaves(w: World, t: Tid) returns (steps: seq<Step>)
    requires O.At(w.o, t) == O.InRound(false) && w.o.flags == O.Flags(true, false, []) && w.holder.None?
    requires Place(w, t).Finished? && w.conv.control.Idle? && R.NothingWaits(w.conv)
    ensures Legal(w, steps) && NoStaleRelease(w, steps) && Unfailing(steps)
    ensures var v := After(w, steps);
            && OthersStand(w, v, t) && v.o.flags == O.Flags(false, true, []) && O.At(v.o, t) == O.Leaving(false)
            && Place(v, t).Idle? && v.conv == w.conv
  {
    steps := Extend(w, [], Own(t, O.LeaveResponse));
    steps := Extend(w, steps, Own(t, O.Finish));
  }

  /** A thread in its round goes through it and gives the conversation up, with its last release to come. */
  lemma Completes(w: World, t: Tid, reply: Message) returns (steps: seq<Step>)
    requires O.At(w.o, t) == O.InRound(false) && w.o.flags == O.Flags(true, false, []) && w.holder.None?
    requires Place(w, t).Claimed? && w.conv.control.Idle? && R.NothingWaits(w.conv)
    requires reply.role == Assistant && reply.calls == []
    ensures Legal(w, steps) && NoStaleRelease(w, steps) && Unfailing(steps)
    ensures var v := After(w, steps);
            && OthersStand(w, v, t) && v.o.flags == O.Flags(false, true, []) && O.At(v.o, t) == O.Leaving(false)
            && Place(v, t).Idle? && R.NothingWaits(v.conv)
  {
    RoundDone(Seen(w, t), reply);
    EndInside(reply);
    Lift(w, t, ToTheEnd(reply));
    steps := Lifted(t, ToTheEnd(reply));
    var more := Leaves(After(w, steps), t);
    steps := Join(w, steps, more);
  }

  lemma Releases(w: World, t: Tid)
    requires O.At(w.o, t) == O.Leaving(false)
    ensures Legal(w, [Own(t, O.Release)]) && Unfailing([Own(t, O.Release)])
    ensures NoStaleRelease(w, [Own(t, O.Release)]) <==> !w.o.flags.active
    ensures var v := After(w, [Own(t, O.Release)]);
            && v.o.flags == O.Flags(false, true, w.o.flags.pending) && O.At(v.o, t).Gone? && Place(v, t).Idle?
            && v.conv == w.conv && (w.conv.control.Idle? ==> OthersStand(w, v, t))
  {
    One(w, Own(t, O.Release));
  }

  // ------------------------------------------------------- what a stale release breaks

  /** The first asker has given the conversation up and is about to release it once more. */
  lemma FirstLeaves(w: World, ask: O.Ask, question: Message, answer: Message) returns (steps: seq<Step>)
    requires Init(w) && R.NothingWaits(w.conv) && question.role == User
    requires answer.role == Assistant && answer.calls == []
    ensures Legal(w, steps) && Unfailing(steps)
    ensures var v := After(w, steps);
            FreeFor(v, 2) && FreeFor(v, 3) && O.At(v.o, 1) == O.Leaving(false) && R.NothingWaits(v.conv)
  {
    steps := Starts(w, 1, ask, question);
    var more := Completes(After(w, steps), 1, answer);
    steps := Join(w, steps, more);
  }

  /** The second one has stored an answer whose calls are still to run. */
  lemma SecondCalls(w: World, ask: O.Ask, question: Message, reply: Message) returns (steps: seq<Step>)
    requires FreeFor(w, 2) && FreeFor(w, 3) && O.At(w.o, 1) == O.Leaving(false) && R.NothingWaits(w.conv)
    requires question.role == User && reply.role == Assistant
    ensures Legal(w, steps) && Unfailing(steps)
    ensures var v := After(w, steps);
            && O.At(v.o, 1) == O.Leaving(false) && Place(v, 1) == Place(w, 1) && v.o.flags == O.Flags(true, false, [])
            && O.At(v.o, 3).Unborn? && Place(v, 3).Idle? && v.holder.None? && v.conv.control.Idle?
            && R.NothingWaits(v.conv) && v.conv.history == w.conv.history + [question] + [reply]
  {
    steps := Starts(w, 2, ask, question);
    var u := After(w, steps);
    R.AnswerStored(Seen(u, 2), reply);
    AnswerInside(reply);
    Lift(u, 2, R.ToAnswer(reply));
    steps := Join(w, steps, Lifted(2, R.ToAnswer(reply)));
  }

  lemma Sends(w: World, t: Tid) returns (steps: seq<Step>)
    requires O.At(w.o, t) == O.InRound(false) && w.holder.None? && w.conv.control.Idle?
    requires Place(w, t).Claimed? && R.NothingWaits(w.conv)
    ensures Legal(w, steps) && Unfailing(steps)
    ensures Place(After(w, steps), t) == R.Waiting(Merge.Merged(w.conv.history))
  {
    R.OpeningSendsHistory(Seen(w, t));
    OpeningInside();
    Lift(w, t, R.Opening());
    steps := Lifted(t, R.Opening());
  }

  /** The first one's release lets a third asker in, whose request carries what is there. */
  lemma ThirdSends(w: World, ask: O.Ask, question: Message) returns (steps: seq<Step>)
    requires O.At(w.o, 1) == O.Leaving(false) && w.o.flags == O.Flags(true, false, [])
    requires O.At(w.o, 3).Unborn? && Place(w, 3).Idle? && w.holder.None? && w.conv.control.Idle?
    requires R.NothingWaits(w.conv) && question.role == User
    ensures Legal(w, steps) && Unfailing(steps)
    ensures Place(After(w, steps), 3) == R.Waiting(Merge.Merged(w.conv.history + [question]))
  {
    Releases(w, 1);
    var more := Starts(After(w, [Own(1, O.Release)]), 3, ask, question);
    steps := Join(w, [Own(1, O.Release)], more);
    more := Sends(After(w, steps), 3);
    steps := Join(w, steps, more);
  }

  /** From the start, with no failure anywhere: the late release of one asker is enough for another one
      to write its question into the middle of a third one's tool group and to send it. */
  lemma StaleReleaseBreaksRequest(w: World, ask: O.Ask, question: Message, answer: Message, reply: Message)
    returns (steps: seq<Step>)
    requires Init(w) && R.NothingWaits(w.conv) && question.role == User
    requires answer.role == Assistant && answer.calls == [] && IsCalling(reply) && CallIds(reply) != {}
    ensures Legal(w, steps) && Unfailing(steps)
    ensures Place(After(w, steps), 3).Waiting? && !WellFormed(Place(After(w, steps), 3).request)
  {
    steps := FirstLeaves(w, ask, question, answer);
    var u := After(w, steps);
    var more := SecondCalls(u, ask, question, reply);
    steps := Join(w, steps, more);
    var v := After(w, steps);
    more := ThirdSends(v, ask, question);
    steps := Join(w, steps, more);
    R.UnansweredStaysBroken(u.conv.history + [question], reply, question);
    Merge.MergedWellFormed(v.conv.history + [question]);
  }

  // --------------------------------------------------------- what a model switch loses

  lemma FindsItRunning(w: World, message: Message)
    requires message.role == User && w.holder.None? && !w.o.flags.stopped
    ensures Legal(w, [Deliver(message)]) && NoStaleRelease(w, [Deliver(message)]) && Unfailing([Deliver(message)])
    ensures After(w, [Deliver(message)]) == w.(bound := w.bound + multiset{message})
  {
    One(w, Deliver(message));
  }

  lemma FirstIsGone(w: World, ask: O.Ask, question: Message, answer: Message, message: Message)
    returns (steps: seq<Step>)
    requires Init(w) && w.conv.queue == [] && question.role == User && message.role == User
    requires answer.role == Assistant && answer.calls == []
    ensures Legal(w, steps) && NoStaleRelease(w, steps) && Unfailing(steps)
    ensures var v := After(w, steps);
            FreeFor(v, 2) && v.bound == multiset{message} && v.conv.queue == []
  {
    steps := Starts(w, 1, ask, question);
    FindsItRunning(After(w, steps), message);
    steps := Join(w, steps, [Deliver(message)]);
    var more := Completes(After(w, steps), 1, answer);
    steps := Join(w, steps, more);
    Releases(After(w, steps), 1);
    steps := Join(w, steps, [Own(1, O.Release)]);
  }

  lemma ManagerClaims(w: World) returns (steps: seq<Step>)
    requires FreeFor(w, 2)
    ensures Legal(w, steps) && NoStaleRelease(w, steps) && Unfailing(steps)
    ensures var v := After(w, steps);
            && OthersStand(w, v, 2) && O.At(v.o, 2).Managing? && Place(v, 2).Managed?
            && v.conv == w.conv.BeginRound()
  {
    steps := Extend(w, [], Own(2, O.ArriveManager));
    steps := Extend(w, steps, Own(2, O.ManagerClaim));
  }

  lemma SwitchAndGo(w: World) returns (steps: seq<Step>)
    requires O.At(w.o, 2).Managing? && Place(w, 2).Managed? && w.holder.None?
    ensures Legal(w, steps) && NoStaleRelease(w, steps) && Unfailing(steps)
    ensures var v := After(w, steps);
            v.bound == w.bound && v.holder.None? && v.conv.queue == [] && v.conv.history == []
  {
    steps := Extend(w, [], Run(2, R.Switch));
    steps := Extend(w, steps, Own(2, O.ManagerRelease));
  }

  lemma ManagerSwitches(w: World) returns (steps: seq<Step>)
    requires FreeFor(w, 2)
    ensures Legal(w, steps) && NoStaleRelease(w, steps) && Unfailing(steps)
    ensures var v := After(w, steps);
            v.bound == w.bound && v.holder.None? && v.conv.queue == [] && v.conv.history == []
  {
    steps := ManagerClaims(w);
    var more := SwitchAndGo(After(w, steps));
    steps := Join(w, steps, more);
  }

  /** A delivery that finds a round running is told that its message is queued. When it is queued after
      that round's end and the model is switched before the next one, it is gone: it is neither in the
      history nor queued, and nobody carries it any more. */
  lemma DeliveryLost(w: World, ask: O.Ask, question: Message, answer: Message, message: Message)
    returns (steps: seq<Step>)
    requires Init(w) && w.conv.queue == [] && question.role == User && message.role == User
    requires answer.role == Assistant && answer.calls == []
    ensures Legal(w, steps) && NoStaleRelease(w, steps) && Unfailing(steps)
    ensures QueueUp(message) in steps
    ensures var v := After(w, steps);
            v.holder.None? && v.bound == multiset{} && v.conv.queue == [] && v.conv.history == []
  {
    var first := FirstIsGone(w, ask, question, answer, message);
    steps := Extend(w, first, QueueUp(message));
    assert steps[|first|] == QueueUp(message);
    var more := ManagerSwitches(After(w, steps));
    var all := Join(w, steps, more);
    assert all[|first|] == QueueUp(message);
    steps := all;
  }
}
