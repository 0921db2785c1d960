/** Stopping a round: when a stop is seen, and that the round ends then. */
module StopProtocol {
  import opened Messages
  import opened RoundRun
  import opened Window

  // ------------------------------------------------------------ what counts as a stop

  /** The accepted stops since the last time the owner took its snapshot, read off the run. */
  function PendingStops(s: State, run: seq<Label>, pending: nat): nat
    requires Legal(s, run)
    decreases |run|
  {
    if run == [] then pending
    else
      var next :=
        match run[0]
        case RequestStop => if s.control.Idle? then pending else pending + 1
        case Manage => 0
        case Claim => 0
        case Begin => 0
        case NextRound(more) => if more then 0 else pending
        case _ => pending;
      PendingStops(Apply(s, run[0]), run[1..], next)
  }

  lemma {:induction false} EpochsCountStops(s: State, run: seq<Label>, pending: nat)
    requires Legal(s, run) && s.stopEpoch == s.roundEpoch + pending
    ensures After(s, run).stopEpoch == After(s, run).roundEpoch + PendingStops(s, run, pending)
    decreases |run|
  {
    if run != [] {
      var t := Apply(s, run[0]);
      EpochsCountStops(t, run[1..], t.stopEpoch - t.roundEpoch);
    }
  }

  /** A stop is seen exactly when one was accepted since the last snapshot. */
  lemma StopSeenExactly(s: State, run: seq<Label>)
    requires Init(s) && Legal(s, run)
    ensures After(s, run).StopRequested() <==> PendingStops(s, run, 0) > 0
  {
    EpochsCountStops(s, run, 0);
  }

  /** The snapshot is taken again when `response_ai` starts, so a stop accepted after the claim but
      before that is forgotten; one accepted later is not. */
  lemma EarlyStopForgotten(s: State)
    requires s.control.Claimed?
    requires s.stopEpoch >= s.roundEpoch
    ensures Legal(s, [RequestStop, Begin])
    ensures Apply(s, RequestStop).StopRequested()
    ensures !After(s, [RequestStop, Begin]).StopRequested()
  {
    var s1 := Apply(s, RequestStop);
    var s2 := Apply(s1, Begin);
    LegalStep(s1, Begin, [], s2);
    LegalStep(s, RequestStop, [Begin] + [], s2);
    assert [RequestStop, Begin] == [RequestStop] + ([Begin] + []);
  }

  // --------------------------------------------------------------- the round comes to an end

  predicate InResponse(c: Control) {
    !c.Idle? && !c.Managed? && !c.Claimed? && !c.Finished?
  }

  /** Steps of the owner that move it on; a context check may also cut texts and drop rounds in place. */
  predicate IsProgress(l: Label) {
    !(|| l.RequestStop? || l.Enqueue? || l.External? || l.Switch? || l.Manage? || l.Claim? || l.Write?
      || (l.EditContext? && (l.edit.CutTexts? || l.edit.DropOldest?)))
  }

  /** What a context check has still to do before it is done: a hand-off, a compression. */
  function CheckSteps(s: State, check: Check): nat {
    match check
    case Free => (if s.handOff.Some? then 2 else 0) + (if Compressible(s.history) then 2 else 0)
    case HandingOff => 1 + (if s.handOff.Some? then 2 else 0) + (if Compressible(s.history) then 2 else 0)
    case Summarizing => 1 + (if s.handOff.Some? then 2 else 0)
  }

  /** How far the owner is from the end of the round once a stop is seen. */
  function Distance(s: State): nat {
    match s.control
    case Starting => 5
    case Injecting => 4
    case Top => 3
    case Checking(check) => 5 + CheckSteps(s, check)
    case Waiting(_) => 4
    case Received(_) => 3
    case Accepted(_) => 12
    case Appended(_) => 11
    case Calling(_) => 10
    case Armed(_) => 12
    case Running(_) => 11
    case AfterTools(_) => 9
    case PostCheck(_, check) => 4 + CheckSteps(s, check)
    case Validating => 1
    case Aborting => 2
    case AbortValidating => 1
    case _ => 0
  }

  function Progress(run: seq<Label>): nat {
    if run == [] then 0 else (if IsProgress(run[0]) then 1 else 0) + Progress(run[1..])
  }

  predicate Stopping(s: State) {
    InResponse(s.control) && s.stopEpoch > s.roundEpoch
  }

  /** A step moves the owner on, or at least not back. */
  predicate Nearer(s: State, l: Label, t: State) {
    && (t.control.Finished? || Stopping(t))
    && Distance(t) <= Distance(s)
    && (IsProgress(l) ==> Distance(t) < Distance(s))
  }

  lemma EditIsNearer(s: State, e: Edit)
    requires Enabled(s, EditContext(e)) && Stopping(s)
    ensures Nearer(s, EditContext(e), Apply(s, EditContext(e)))
  {
    if e.HandOff? {
      HandedOverCounts(s.history, e.prefix, e.summary);
    } else {
      EditAsksNoMore(s.history, e);
    }
  }

  lemma CheckIsNearer(s: State, l: Label)
    requires Enabled(s, l) && Stopping(s) && InCheck(s.control) && !l.EditContext?
    ensures Nearer(s, l, Apply(s, l))
  {
  }

  lemma EnterIsNearer(s: State, l: Label)
    requires Enabled(s, l) && Stopping(s) && (l.CheckStop? || l.MergeNow?)
    ensures Nearer(s, l, Apply(s, l))
  {
  }

  lemma OthersAreNearer(s: State, l: Label)
    requires Enabled(s, l) && Stopping(s) && !InCheck(s.control) && !l.CheckStop? && !l.MergeNow?
    ensures Nearer(s, l, Apply(s, l))
  {
    assert !InCheck(Apply(s, l).control);
  }

  lemma StopStep(s: State, l: Label)
    requires Enabled(s, l) && Stopping(s)
    ensures Nearer(s, l, Apply(s, l))
  {
    if l.CheckStop? || l.MergeNow? {
      EnterIsNearer(s, l);
    } else if !InCheck(s.control) {
      OthersAreNearer(s, l);
    } else if l.EditContext? {
      EditIsNearer(s, l.edit);
    } else {
      CheckIsNearer(s, l);
    }
  }

  /** The first n steps of a run end a round, with a well-formed history unless it died. */
  ghost predicate EndsAfter(s: State, run: seq<Label>, n: nat) {
    && n <= |run| && Legal(s, run[..n])
    && var t := After(s, run[..n]);
       t.control.Finished? && (t.control.outcome != Failed ==> WellFormed(t.history))
  }

  lemma EndsLater(s: State, run: seq<Label>, n: nat)
    requires run != [] && Enabled(s, run[0]) && EndsAfter(Apply(s, run[0]), run[1..], n)
    ensures EndsAfter(s, run, n + 1)
  {
    assert run[..n + 1] == [run[0]] + run[1..][..n];
    LegalStep(s, run[0], run[1..][..n], After(Apply(s, run[0]), run[1..][..n]));
  }

  lemma EndsNow(s: State, run: seq<Label>)
    requires OwnedInv(s) && s.control.Finished?
    ensures EndsAfter(s, run, 0)
  {
    assert run[..0] == [];
  }

  lemma {:induction false} StoppingEnds(s: State, run: seq<Label>) returns (n: nat)
    requires OwnedInv(s) && Legal(s, run) && Stopping(s) && Progress(run) >= Distance(s)
    ensures EndsAfter(s, run, n)
    decreases |run|
  {
    n := 0;
    if run != [] {
      var t := Apply(s, run[0]);
      StepKeepsOwned(s, run[0]);
      StopStep(s, run[0]);
      if t.control.Finished? {
        EndsNow(t, run[1..]);
      } else {
        n := StoppingEnds(t, run[1..]);
      }
      EndsLater(s, run, n);
      n := n + 1;
    }
  }

  /** From wherever a stop is pending, in whatever run: after at most `Distance` more steps of its own
      the owner has ended the round, whatever other threads do in between, and a round that ended by
      itself or by the stop has left a well-formed history. */
  lemma StopEndsRound(start: State, past: seq<Label>, run: seq<Label>)
    requires Init(start) && Legal(start, past) && Legal(After(start, past), run)
    requires InResponse(After(start, past).control) && After(start, past).StopRequested()
    requires Progress(run) >= Distance(After(start, past))
    ensures exists n :: EndsAfter(After(start, past), run, n)
  {
    InitKnown(start);
    RunKeepsKnown(start, past, false);
    var n := StoppingEnds(After(start, past), run);
  }
}
