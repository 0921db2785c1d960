/** Who may run a conversation's rounds: the claim, the queue behind it and the release, with any
    number of asking threads and short-lived managers (a compaction, a model switch). */
module Ownership {
  import opened Common

  datatype Ask = Ask(source: string, text: string)

  /** What the round lock guards. `stopped` is the event other threads wait for. */
  datatype Flags = Flags(active: bool, stopped: bool, pending: seq<Ask>) {

    function Claim(): (r: (Flags, bool)) {
      if active then (this, false) else (this.(active := true, stopped := false), true)
    }

    function Queue(ask: Ask): Flags {
      this.(pending := pending + [ask])
    }

    /** The next batch of the owner's sequence, or None when the ownership has been given up. */
    function FinishOrTakeNext(leftover: bool): (Flags, Option<seq<Ask>>) {
      if pending != [] then (this.(pending := [], stopped := false), Some(pending))
      else if leftover then (this.(stopped := false), Some([]))
      else (this.(active := false, stopped := true), None)
    }

    function Release(): Flags {
      this.(active := false, stopped := true)
    }
  }

  type Tid = nat

  /** Where a thread stands in `ask_ai`, or in a manager that only holds the round briefly. */
  datatype Phase =
    | Unborn
    | Fresh(ask: Ask)                // in front of the claim
    | MustQueue(ask: Ask)            // the claim failed, the question is not queued yet
    | Owner(batch: seq<Ask>)         // owns the round, writes its batch
    | InRound(claimedHere: bool)     // inside `response_ai`
    | AfterRound                     // in front of finish-or-take-next
    | Leaving(owning: bool)          // in front of the release in the `finally`, owning after an exception
    | Manager                        // in front of its claim
    | Managing                       // holds the round
    | Gone

  predicate Owns(p: Phase) {
    p.Owner? || p.InRound? || p.AfterRound? || p == Leaving(true) || p.Managing?
  }

  /** `leftover` says whether relayed messages wait in the response queue; `arrived` logs the queued
      questions and `handed` the batches given out, both in order. */
  datatype State = State(
    flags: Flags, leftover: bool, threads: map<Tid, Phase>, arrived: seq<Ask>, handed: seq<Ask>)

  datatype Action =
    | Arrive(ask: Ask) | ArriveManager | TryClaim | QueueAsk | QueueForced | EnterResponse | Drain
    | LeaveResponse | Finish | Crash | Release | ManagerClaim | ManagerGivesUp | ManagerRelease | Relay

  datatype Label = Label(t: Tid, action: Action)

  function At(s: State, t: Tid): Phase {
    if t in s.threads then s.threads[t] else Unborn
  }

  predicate Enabled(s: State, l: Label) {
    var p := At(s, l.t);
    match l.action
    case Arrive(_) => p.Unborn?
    case ArriveManager => p.Unborn?
    case TryClaim => p.Fresh?
    case QueueAsk => p.MustQueue?
    case QueueForced => p.MustQueue?
    case EnterResponse => p.Owner?
    case Drain => p.InRound?
    case LeaveResponse => p.InRound?
    case Finish => p.AfterRound?
    case Crash => p.Owner? || p.AfterRound?
    case Release => p.Leaving?
    case ManagerClaim => p.Manager?
    case ManagerGivesUp => p.Manager?
    case ManagerRelease => p.Managing?
    case Relay => true
  }

  function To(s: State, t: Tid, p: Phase): State {
    s.(threads := s.threads[t := p])
  }

  function Apply(s: State, l: Label): State
    requires Enabled(s, l)
  {
    match l.action
    case Arrive(ask) => To(s, l.t, Fresh(ask))
    case ArriveManager => To(s, l.t, Manager)
    case Relay => s.(leftover := true)
    case TryClaim =>
      var (flags, got) := s.flags.Claim();
      var ask := At(s, l.t).ask;
      To(s.(flags := flags), l.t, if got then Owner([ask]) else MustQueue(ask))
    case QueueAsk =>
      var ask := At(s, l.t).ask;
      To(s.(flags := s.flags.Queue(ask), arrived := s.arrived + [ask]), l.t, Gone)
    case QueueForced => To(s.(leftover := true), l.t, Gone)
    case EnterResponse =>
      var (flags, got) := s.flags.Claim();
      To(s.(flags := flags), l.t, InRound(got))
    case Drain => s.(leftover := false)
    case LeaveResponse =>
      To(s.(flags := if At(s, l.t).claimedHere then s.flags.Release() else s.flags), l.t, AfterRound)
    case Finish =>
      var (flags, batch) := s.flags.FinishOrTakeNext(s.leftover);
      To(s.(flags := flags, handed := s.handed + if batch.Some? then batch.value else []), l.t,
         if batch.Some? then Owner(batch.value) else Leaving(false))
    case Crash => To(s, l.t, Leaving(true))
    case Release => To(s.(flags := s.flags.Release()), l.t, Gone)
    case ManagerClaim =>
      var (flags, got) := s.flags.Claim();
      To(s.(flags := flags), l.t, if got then Managing else Manager)
    case ManagerGivesUp => To(s, l.t, Gone)
    case ManagerRelease => To(s.(flags := s.flags.Release()), l.t, Gone)
  }

  ghost predicate Legal(s: State, run: seq<Label>)
    decreases |run|
  {
    run == [] || (Enabled(s, run[0]) && Legal(Apply(s, run[0]), run[1..]))
  }

  ghost function After(s: State, run: seq<Label>): State
    requires Legal(s, run)
    decreases |run|
  {
    if run == [] then s else After(Apply(s, run[0]), run[1..])
  }

  const INITIAL := State(Flags(false, true, []), false, map[], [], [])

  // ---------------------------------------------------------------- nothing gets lost

  lemma {:induction false} QueueConserved(s: State, run: seq<Label>)
    requires Legal(s, run) && s.handed + s.flags.pending == s.arrived
    ensures After(s, run).handed + After(s, run).flags.pending == After(s, run).arrived
    decreases |run|
  {
    if run != [] {
      var t := Apply(s, run[0]);
      if run[0].action.QueueAsk? {
        var ask := At(s, run[0].t).ask;
        assert s.handed + (s.flags.pending + [ask]) == s.arrived + [ask];
      }
      assert t.handed + t.flags.pending == t.arrived;
      QueueConserved(t, run[1..]);
    }
  }

  /** In every run, even one in which the ownership went wrong: the batches handed out, followed by
      what still waits, are the queued questions in arrival order, none lost and none twice. */
  lemma BatchesFollowArrivals(run: seq<Label>)
    requires Legal(INITIAL, run)
    ensures var s := After(INITIAL, run);
            s.handed + s.flags.pending == s.arrived
  {
    QueueConserved(INITIAL, run);
  }

  // ------------------------------------------------------------------- one owner only

  ghost predicate OwnedBy(s: State, owner: Option<Tid>) {
    && s.flags.active == owner.Some?
    && s.flags.stopped == !s.flags.active
    && (forall t: Tid :: Owns(At(s, t)) <==> owner == Some(t))
    && (owner.Some? ==> At(s, owner.value) != InRound(true))
  }

  /** The round is active exactly while one thread owns it, and waiters see exactly that. */
  ghost predicate OneOwner(s: State) {
    exists owner :: OwnedBy(s, owner)
  }

  /** The unconditional release at the end of `ask_ai`, by a thread that already gave the round up,
      while somebody else owns it. */
  predicate StaleRelease(s: State, l: Label) {
    l.action.Release? && At(s, l.t) == Leaving(false) && s.flags.active
  }

  /** Who owns the round after a step. */
  function OwnerAfter(s: State, owner: Option<Tid>, l: Label): Option<Tid>
    requires Enabled(s, l)
  {
    if Owns(At(Apply(s, l), l.t)) then Some(l.t) else if owner == Some(l.t) then None else owner
  }

  lemma OwnerMovesOn(s: State, owner: Option<Tid>, l: Label)
    requires OwnedBy(s, owner) && Enabled(s, l) && !StaleRelease(s, l)
    ensures OwnedBy(Apply(s, l), OwnerAfter(s, owner, l))
  {
    var r := Apply(s, l);
    assert forall t | t != l.t :: At(r, t) == At(s, t);
    assert Owns(At(s, l.t)) <==> owner == Some(l.t);
  }

  /** A step keeps the single ownership exactly when it is not a stale release. */
  lemma StepKeepsOneOwner(s: State, l: Label)
    requires OneOwner(s) && Enabled(s, l)
    ensures OneOwner(Apply(s, l)) <==> !StaleRelease(s, l)
  {
    var owner :| OwnedBy(s, owner);
    if StaleRelease(s, l) {
      var r := Apply(s, l);
      assert Owns(At(r, owner.value)) by {
        assert Owns(At(s, owner.value)) && owner.value != l.t;
      }
      forall next
        ensures !OwnedBy(r, next)
      {
      }
    } else {
      OwnerMovesOn(s, owner, l);
    }
  }

  ghost predicate NoStaleRelease(s: State, run: seq<Label>)
    requires Legal(s, run)
    decreases |run|
  {
    run == [] || (!StaleRelease(s, run[0]) && NoStaleRelease(Apply(s, run[0]), run[1..]))
  }

  lemma {:induction false} RunKeepsOneOwner(s: State, run: seq<Label>)
    requires OneOwner(s) && Legal(s, run) && NoStaleRelease(s, run)
    ensures OneOwner(After(s, run))
    decreases |run|
  {
    if run != [] {
      StepKeepsOneOwner(s, run[0]);
      RunKeepsOneOwner(Apply(s, run[0]), run[1..]);
    }
  }

  /** As long as only owners release, at most one thread runs the conversation, and the stop event
      is set exactly when none does. */
  lemma OnlyOwnersRelease(run: seq<Label>)
    requires Legal(INITIAL, run) && NoStaleRelease(INITIAL, run)
    ensures OneOwner(After(INITIAL, run))
  {
    assert OwnedBy(INITIAL, None);
    RunKeepsOneOwner(INITIAL, run);
  }

  // ------------------------------------------------------------------ how it goes wrong

  lemma LegalStep(s: State, l: Label, rest: seq<Label>, t: State)
    requires Enabled(s, l) && Legal(Apply(s, l), rest) && After(Apply(s, l), rest) == t
    ensures Legal(s, [l] + rest) && After(s, [l] + rest) == t
  {
    assert ([l] + rest)[1..] == rest;
  }

  /** The release of a thread that left, followed by the claim of a newcomer. */
  function StaleRun(leaver: Tid, newcomer: Tid): seq<Label> {
    [Label(leaver, Release)] + ([Label(newcomer, TryClaim)] + [])
  }

  /** A stale release frees the round under its owner: the next asker claims it as well. */
  lemma StaleReleaseAdmitsSecondOwner(s: State, leaver: Tid, owner: Tid, newcomer: Tid)
    requires At(s, leaver) == Leaving(false) && Owns(At(s, owner)) && At(s, newcomer).Fresh?
    ensures Legal(s, StaleRun(leaver, newcomer))
    ensures var r := After(s, StaleRun(leaver, newcomer));
            owner != newcomer && Owns(At(r, owner)) && Owns(At(r, newcomer))
  {
    var s1 := Apply(s, Label(leaver, Release));
    var s2 := Apply(s1, Label(newcomer, TryClaim));
    LegalStep(s1, Label(newcomer, TryClaim), [], s2);
    LegalStep(s, Label(leaver, Release), [Label(newcomer, TryClaim)] + [], s2);
  }

  lemma {:induction false} LegalConcat(s: State, a: seq<Label>, b: seq<Label>)
    requires Legal(s, a) && Legal(After(s, a), b)
    ensures Legal(s, a + b) && After(s, a + b) == After(After(s, a), b)
    decreases |a|
  {
    if a == [] {
      assert a + b == b;
    } else {
      assert (a + b)[1..] == a[1..] + b;
      LegalConcat(Apply(s, a[0]), a[1..], b);
    }
  }

  lemma Extend(s: State, run: seq<Label>, l: Label) returns (longer: seq<Label>)
    requires Legal(s, run) && Enabled(After(s, run), l)
    ensures Legal(s, longer) && After(s, longer) == Apply(After(s, run), l)
  {
    LegalStep(After(s, run), l, [], Apply(After(s, run), l));
    LegalConcat(s, run, [l] + []);
    longer := run + ([l] + []);
  }

  /** One asker works through a whole sequence and stands in front of its final release. */
  lemma FirstAskerLeaves(ask: Ask) returns (run: seq<Label>)
    ensures Legal(INITIAL, run)
    ensures After(INITIAL, run) ==
            State(Flags(false, true, []), false, map[1 := Leaving(false)], [], [])
  {
    run := Extend(INITIAL, [], Label(1, Arrive(ask)));
    run := Extend(INITIAL, run, Label(1, TryClaim));
    run := Extend(INITIAL, run, Label(1, EnterResponse));
    run := Extend(INITIAL, run, Label(1, LeaveResponse));
    run := Extend(INITIAL, run, Label(1, Finish));
  }

  lemma SecondOwns(ask: Ask) returns (run: seq<Label>)
    ensures Legal(INITIAL, run)
    ensures After(INITIAL, run) ==
            State(Flags(true, false, []), false, map[1 := Leaving(false), 2 := Owner([ask])], [], [])
  {
    run := FirstAskerLeaves(ask);
    run := Extend(INITIAL, run, Label(2, Arrive(ask)));
    run := Extend(INITIAL, run, Label(2, TryClaim));
  }

  /** Three askers are enough to reach it from a fresh conversation: the first one finishes and gives
      the round up, the second one claims it before the first one's `finally` runs. */
  lemma TwoOwnersReachable(ask: Ask) returns (run: seq<Label>)
    ensures Legal(INITIAL, run)
    ensures Owns(At(After(INITIAL, run), 2)) && Owns(At(After(INITIAL, run), 3))
  {
    run := SecondOwns(ask);
    run := Extend(INITIAL, run, Label(3, Arrive(ask)));
    StaleReleaseAdmitsSecondOwner(After(INITIAL, run), 1, 2, 3);
    LegalConcat(INITIAL, run, StaleRun(1, 3));
    run := run + StaleRun(1, 3);
  }

  // -------------------------------------------------------------- questions left behind

  /** A question that waits has an owner to hand it out. */
  predicate Attended(f: Flags) {
    f.pending != [] ==> f.active
  }

  /** A question is queued on a round nobody owns, or a round is let go with questions waiting: by
      `ask_ai`'s last release or by a manager's. */
  predicate Strands(s: State, l: Label) {
    || (l.action.QueueAsk? && !s.flags.active)
    || ((l.action.Release? || l.action.ManagerRelease?) && s.flags.pending != [])
  }

  /** Of all steps exactly these leave questions behind that nobody runs. */
  lemma StepStrandsExactly(s: State, l: Label)
    requires OneOwner(s) && Attended(s.flags) && Enabled(s, l)
    ensures Attended(Apply(s, l).flags) <==> !Strands(s, l)
  {
    var owner :| OwnedBy(s, owner);
    assert At(s, l.t) != InRound(true) by {
      assert Owns(At(s, l.t)) <==> owner == Some(l.t);
    }
  }

  ghost predicate NothingStrands(s: State, run: seq<Label>)
    requires Legal(s, run)
    decreases |run|
  {
    run == [] || (!Strands(s, run[0]) && NothingStrands(Apply(s, run[0]), run[1..]))
  }

  lemma {:induction false} RunAttends(s: State, run: seq<Label>)
    requires OneOwner(s) && Attended(s.flags) && Legal(s, run) && NoStaleRelease(s, run) && NothingStrands(s, run)
    ensures Attended(After(s, run).flags)
    decreases |run|
  {
    if run != [] {
      StepKeepsOneOwner(s, run[0]);
      StepStrandsExactly(s, run[0]);
      RunAttends(Apply(s, run[0]), run[1..]);
    }
  }

  /** As long as no such step is taken (and only owners release), every waiting question has an owner. */
  lemma WaitingQuestionsAttended(run: seq<Label>)
    requires Legal(INITIAL, run) && NoStaleRelease(INITIAL, run) && NothingStrands(INITIAL, run)
    ensures Attended(After(INITIAL, run).flags)
  {
    assert OwnedBy(INITIAL, None);
    RunAttends(INITIAL, run);
  }

  lemma ExtendQuietly(run: seq<Label>, l: Label) returns (longer: seq<Label>)
    requires Legal(INITIAL, run) && NoStaleRelease(INITIAL, run)
    requires Enabled(After(INITIAL, run), l) && !StaleRelease(After(INITIAL, run), l)
    ensures Legal(INITIAL, longer) && NoStaleRelease(INITIAL, longer)
    ensures After(INITIAL, longer) == Apply(After(INITIAL, run), l)
  {
    var last := [l] + [];
    LegalStep(After(INITIAL, run), l, [], Apply(After(INITIAL, run), l));
    assert last[1..] == [];
    LegalConcat(INITIAL, run, last);
    QuietConcat(INITIAL, run, last);
    longer := run + last;
  }

  lemma {:induction false} QuietConcat(s: State, a: seq<Label>, b: seq<Label>)
    requires Legal(s, a) && Legal(After(s, a), b) && Legal(s, a + b)
    requires NoStaleRelease(s, a) && NoStaleRelease(After(s, a), b)
    ensures NoStaleRelease(s, a + b)
    decreases |a|
  {
    if a == [] {
      assert a + b == b;
    } else {
      assert (a + b)[1..] == a[1..] + b;
      QuietConcat(Apply(s, a[0]), a[1..], b);
    }
  }

  /** A second asker's claim has failed while the first one owns the round. */
  lemma SecondMustQueue(ask: Ask, late: Ask) returns (run: seq<Label>)
    ensures Legal(INITIAL, run) && NoStaleRelease(INITIAL, run)
    ensures After(INITIAL, run) ==
            State(Flags(true, false, []), false, map[1 := Owner([ask]), 2 := MustQueue(late)], [], [])
  {
    run := ExtendQuietly([], Label(1, Arrive(ask)));
    run := ExtendQuietly(run, Label(1, TryClaim));
    run := ExtendQuietly(run, Label(2, Arrive(late)));
    run := ExtendQuietly(run, Label(2, TryClaim));
  }

  lemma FirstAfterRound(ask: Ask, late: Ask) returns (run: seq<Label>)
    ensures Legal(INITIAL, run) && NoStaleRelease(INITIAL, run)
    ensures After(INITIAL, run) ==
            State(Flags(true, false, []), false, map[1 := AfterRound, 2 := MustQueue(late)], [], [])
  {
    run := SecondMustQueue(ask, late);
    run := ExtendQuietly(run, Label(1, EnterResponse));
    run := ExtendQuietly(run, Label(1, LeaveResponse));
  }

  lemma FirstIsDone(ask: Ask, late: Ask) returns (run: seq<Label>)
    ensures Legal(INITIAL, run) && NoStaleRelease(INITIAL, run)
    ensures After(INITIAL, run) ==
            State(Flags(false, true, []), false, map[1 := Leaving(false), 2 := MustQueue(late)], [], [])
  {
    run := FirstAfterRound(ask, late);
    run := ExtendQuietly(run, Label(1, Finish));
  }

  ghost predicate Over(s: State) {
    forall t: Tid :: At(s, t) == Unborn || At(s, t) == Gone
  }

  /** Failing the claim and queueing are two steps: a question can be queued just after the owner
      left, and then waits although nobody runs the conversation. */
  lemma QuestionCanStrand(ask: Ask, late: Ask) returns (run: seq<Label>)
    ensures Legal(INITIAL, run) && NoStaleRelease(INITIAL, run)
    ensures After(INITIAL, run).flags == Flags(false, true, [late]) && Over(After(INITIAL, run))
  {
    run := FirstIsDone(ask, late);
    run := ExtendQuietly(run, Label(1, Release));
    run := ExtendQuietly(run, Label(2, QueueAsk));
  }

  /** A manager releases without looking at the queue: a question asked meanwhile waits, too. */
  lemma ManagerCanStrand(late: Ask) returns (run: seq<Label>)
    ensures Legal(INITIAL, run) && NoStaleRelease(INITIAL, run)
    ensures After(INITIAL, run).flags == Flags(false, true, [late]) && Over(After(INITIAL, run))
  {
    run := ExtendQuietly([], Label(1, ArriveManager));
    run := ExtendQuietly(run, Label(1, ManagerClaim));
    run := ExtendQuietly(run, Label(2, Arrive(late)));
    run := ExtendQuietly(run, Label(2, TryClaim));
    run := ExtendQuietly(run, Label(2, QueueAsk));
    run := ExtendQuietly(run, Label(1, ManagerRelease));
  }

  // ------------------------------------------------------------- the stop event itself

  /** Waiters see the event set exactly when no round is active. */
  predicate Agree(f: Flags) {
    f.stopped == !f.active
  }

  /** Of all steps only one can part the event from the flag: an owner whose round was released under
      it takes its next batch, which clears the event and leaves the flag as it is. */
  lemma StopEventExactly(s: State, l: Label)
    requires Agree(s.flags) && Enabled(s, l)
    ensures Agree(Apply(s, l).flags) <==>
            !(l.action.Finish? && !s.flags.active && (s.flags.pending != [] || s.leftover))
  {
  }

  /** The first asker is about to release; the second one owns the round, the third one's question waits. */
  lemma SecondAskerBusy(ask: Ask, next: Ask) returns (run: seq<Label>)
    ensures Legal(INITIAL, run)
    ensures After(INITIAL, run) ==
            State(Flags(true, false, [next]), false, map[1 := Leaving(false), 2 := Owner([ask]), 3 := Gone], [next], [])
  {
    run := SecondOwns(ask);
    run := Extend(INITIAL, run, Label(3, Arrive(next)));
    run := Extend(INITIAL, run, Label(3, TryClaim));
    run := Extend(INITIAL, run, Label(3, QueueAsk));
  }

  /** And that happens: waiters then see a running round that a newcomer can still claim. */
  lemma StopEventCanLie(ask: Ask, next: Ask) returns (run: seq<Label>)
    ensures Legal(INITIAL, run) && After(INITIAL, run).flags == Flags(false, false, [])
    ensures At(After(INITIAL, run), 2) == Owner([next])
  {
    run := SecondAskerBusy(ask, next);
    run := Extend(INITIAL, run, Label(2, EnterResponse));
    run := Extend(INITIAL, run, Label(2, LeaveResponse));
    run := Extend(INITIAL, run, Label(1, Release));
    run := Extend(INITIAL, run, Label(2, Finish));
  }
}
