/** What a round may still start after a stop: requests with the history, tool calls and summaries. */
module LateStarts {
  import opened Common
  import opened Messages
  import opened Window
  import opened RoundRun
  import opened Rounds
  import Validate

  // --------------------------------------------- what the check will find to summarize

  /** The check behind an answer asks for a summary if the history grows by one round until then. */
  predicate AsksLater(ms: History) {
    RoundCount(ms) >= KEEP_ROUNDS && HasText(Oldest(ms, RoundCount(ms) + 1 - KEEP_ROUNDS))
  }

  /** Rounds that are not the newest stay as they are, so the oldest ones hold the same text. */
  lemma SameOldest(ms: History, more: History, k: nat)
    requires k < RoundCount(ms) <= RoundCount(more)
    requires Split(more).rounds[..RoundCount(ms) - 1] == Split(ms).rounds[..RoundCount(ms) - 1]
    ensures Oldest(more, k) == Oldest(ms, k)
  {
    SamePrefix(Split(more).rounds, Split(ms).rounds, k);
  }

  /** An answer or a tool result joins the newest round. */
  lemma AnswerAsksTheSame(ms: History, m: Message)
    requires m.role != User
    ensures AsksLater(ms + [m]) <==> AsksLater(ms)
  {
    AppendCounts(ms, m);
    if RoundCount(ms) >= KEEP_ROUNDS {
      SameOldest(ms, ms + [m], RoundCount(ms) + 1 - KEEP_ROUNDS);
    }
  }

  lemma MergedAskAtMostLater(ms: History, users: History)
    requires AllUsers(users) && AsksSummary(ms + users)
    ensures AsksLater(ms)
  {
    UsersCount(ms, users);
    var n, k := RoundCount(ms), RoundCount(ms + users) - KEEP_ROUNDS;
    SameOldest(ms, ms + users, k);
    MoreRoundsMoreText(Split(ms).rounds, k, n + 1 - KEEP_ROUNDS);
  }

  lemma MergedAsk(ms: History, users: History)
    requires AllUsers(users) && users != [] && EndsAnswered(ms) && AsksLater(ms)
    ensures AsksSummary(ms + users)
  {
    var body, last := ms[..|ms| - 1], ms[|ms| - 1];
    assert ms == body + [last];
    ScanAppend(body, last);
    UsersCount(ms, users);
    SameOldest(ms, ms + users, RoundCount(ms) + 1 - KEEP_ROUNDS);
  }

  predicate EndsAnswered(ms: History) {
    ms != [] && (ms[|ms| - 1].role == Assistant || ms[|ms| - 1].role == Tool)
  }

  /** While a hand-off is pending there is one round at most, so a check asks for one summary only. */
  lemma UsersAskNothing(ms: History, prefix: string, summary: Option<string>)
    requires AllUsers(ms)
    ensures !Compressible(ms) && !Compressible(HandedOver(ms, prefix, summary))
  {
    UsersCount([], ms);
    assert [] + ms == ms;
    HandedOverCounts(ms, prefix, summary);
  }

  // ------------------------------------------------------------------- the invariant

  predicate BeforeCheck(c: Control) {
    || c.Idle? || c.Managed? || c.Claimed? || c.Starting? || c.Injecting? || c.Top? || c == Checking(Free)
    || c.Aborting? || c.AbortValidating? || c.Finished?
  }

  /** Behind the first merge of a round. */
  predicate PastMerge(c: Control) {
    !c.Idle? && !c.Managed? && !c.Claimed? && !c.Starting? && !c.Finished?
  }

  /** Between an answer and the merge behind it. */
  predicate Answering(c: Control) {
    c.Appended? || c.Calling? || c.Armed? || c.Running? || c.AfterTools?
  }

  predicate HasReply(c: Control) {
    c.Received? || c.Accepted? || c.Appended?
  }

  /** A pending hand-off finds nothing but what players said since the switch. */
  predicate AskInv(s: State) {
    && (s.handOff.Some? ==> BeforeCheck(s.control) && AllUsers(s.history) && AllUsers(s.queue))
    && (s.control == Checking(HandingOff) ==> AllUsers(s.history))
    && (PastMerge(s.control) ==> AllUsers(s.queue))
    && (Answering(s.control) ==> EndsAnswered(s.history))
    && (HasReply(s.control) ==> s.control.reply.role == Assistant)
  }

  lemma QuietControls(s: State, l: Label)
    requires Enabled(s, l) && !ChangesHistory(l)
    ensures var t := Apply(s, l);
            && t.history == s.history && (t.handOff == s.handOff || t.handOff.None?)
            && t.queue == (if l.Enqueue? then s.queue + [l.message] else s.queue)
            && (t.handOff.Some? && BeforeCheck(s.control) ==> BeforeCheck(t.control))
            && (t.control == Checking(HandingOff) ==> s.control == t.control || s.handOff.Some?)
            && (PastMerge(t.control) ==> PastMerge(s.control))
            && (Answering(t.control) ==> Answering(s.control))
            && (HasReply(t.control) ==>
                  if HasReply(s.control) then t.control.reply == s.control.reply else t.control.reply.role == Assistant)
  {
  }

  lemma QuietStepKeepsAskInv(s: State, l: Label)
    requires AskInv(s) && Enabled(s, l) && !ChangesHistory(l)
    ensures AskInv(Apply(s, l))
  {
    QuietControls(s, l);
  }

  lemma RepairKeepsUsers(ms: History)
    requires AllUsers(ms)
    ensures Validate.Validated(ms) == ms && WithoutUnanswered(ms) == ms
  {
    CallFreeWellFormed(ms);
    Validate.ValidatedWellFormed(ms);
  }

  lemma MergeKeepsAskInv(s: State, l: Label)
    requires AskInv(s) && Enabled(s, l) && (l.MergeStart? || l.MergeNow?)
    ensures AskInv(Apply(s, l))
  {
  }

  lemma HandOverKeepsAskInv(s: State, l: Label)
    requires AskInv(s) && Enabled(s, l) && (l.Write? || l.External? || l.Switch? || l.Inject?)
    ensures AskInv(Apply(s, l))
  {
  }

  lemma AnswerKeepsAskInv(s: State, l: Label)
    requires AskInv(s) && Enabled(s, l) && (l.Append? || l.ToolDone?)
    ensures AskInv(Apply(s, l))
  {
  }

  lemma EditKeepsAskInv(s: State, l: Label)
    requires AskInv(s) && Enabled(s, l) && (l.EditContext? || l.ValidateEnd? || l.DropUnanswered?)
    ensures AskInv(Apply(s, l))
  {
    if s.handOff.Some? {
      RepairKeepsUsers(s.history);
    }
  }

  lemma StepKeepsAskInv(s: State, l: Label)
    requires AskInv(s) && Enabled(s, l)
    ensures AskInv(Apply(s, l))
  {
    if !ChangesHistory(l) {
      QuietStepKeepsAskInv(s, l);
    } else if l.MergeStart? || l.MergeNow? {
      MergeKeepsAskInv(s, l);
    } else if l.Append? || l.ToolDone? {
      AnswerKeepsAskInv(s, l);
    } else if l.EditContext? || l.ValidateEnd? || l.DropUnanswered? {
      EditKeepsAskInv(s, l);
    } else {
      HandOverKeepsAskInv(s, l);
    }
  }

  lemma {:induction false} RunKeepsAskInv(s: State, run: seq<Label>)
    requires AskInv(s) && Legal(s, run)
    ensures AskInv(After(s, run))
    decreases |run|
  {
    if run != [] {
      StepKeepsAskInv(s, run[0]);
      RunKeepsAskInv(Apply(s, run[0]), run[1..]);
    }
  }

  // --------------------------------------------------------- what a stop is followed by

  /** The summary the check in front of a request has still to ask for. */
  function AsksFirst(s: State): nat {
    if s.handOff.Some? then (if HasText(s.handOff.value) then 1 else 0)
    else if AsksSummary(s.history) then 1 else 0
  }

  function AsksBehind(ms: History): nat {
    if AsksLater(ms) then 1 else 0
  }

  /** The starts that may follow a stop accepted here: the summary the check has still to ask for and the
      request it precedes; the tool call that is past its check; and the summary of the check behind the
      answer, if there will be older rounds with any text by then. */
  function Foreseen(s: State): nat {
    match s.control
    case Checking(check) => 1 + if check == Free then AsksFirst(s) else 0
    case PostCheck(_, check) => if check == Free && AsksSummary(s.history) then 1 else 0
    case Armed(_) => 1 + AsksBehind(s.history)
    case Accepted(_) => AsksBehind(s.history)
    case Appended(_) => AsksBehind(s.history)
    case Calling(_) => AsksBehind(s.history)
    case Running(_) => AsksBehind(s.history)
    case AfterTools(_) => AsksBehind(s.history)
    case _ => 0
  }

  /** How many requests and tool calls were started since a stop was accepted in this round. */
  function Starts(s: State): nat {
    s.late + s.asked
  }

  predicate TakesSnapshot(l: Label) {
    l.Manage? || l.Claim? || l.Begin? || (l.NextRound? && l.more)
  }

  /** A stretch of a run that stays within the round. */
  ghost predicate Within(s: State, run: seq<Label>) {
    Legal(s, run) && forall l | l in run :: !TakesSnapshot(l)
  }

  predicate StopSeen(s: State) {
    AskInv(s) && s.stopEpoch > s.roundEpoch
  }

  predicate NoMoreThan(s: State, t: State) {
    t.stopEpoch > t.roundEpoch && Starts(t) + Foreseen(t) <= Starts(s) + Foreseen(s)
  }

  lemma EditForeseesNoMore(s: State, e: Edit)
    requires AskInv(s) && Enabled(s, EditContext(e))
    ensures Foreseen(Apply(s, EditContext(e))) <= Foreseen(s)
  {
    if e.HandOff? {
      UsersAskNothing(s.history, e.prefix, e.summary);
    } else {
      EditAsksNoMore(s.history, e);
      CheckForeseesHistory(s, Edited(s.history, e), e);
    }
  }

  lemma CheckForeseesHistory(s: State, ms: History, e: Edit)
    requires Enabled(s, EditContext(e)) && !e.HandOff?
    requires AsksSummary(ms) ==> AsksSummary(s.history) && !e.Compress?
    requires s.handOff.None?
    ensures Foreseen(s.(history := ms).At(Free)) <= Foreseen(s)
  {
  }

  lemma SkipIsForeseen(s: State)
    requires Enabled(s, SkipHandOff) && StopSeen(s)
    ensures NoMoreThan(s, Apply(s, SkipHandOff))
  {
    UsersAskNothing(s.history, "", None);
  }

  lemma CheckIsForeseen(s: State, l: Label)
    requires Enabled(s, l) && s.stopEpoch > s.roundEpoch && !TakesSnapshot(l) && InCheck(s.control)
    requires !l.EditContext? && !l.SkipHandOff?
    ensures NoMoreThan(s, Apply(s, l))
  {
  }

  lemma AppendIsForeseen(s: State)
    requires Enabled(s, Append) && StopSeen(s)
    ensures NoMoreThan(s, Apply(s, Append))
  {
    AnswerAsksTheSame(s.history, s.control.reply);
  }

  lemma ToolDoneIsForeseen(s: State, result: string)
    requires Enabled(s, ToolDone(result)) && s.stopEpoch > s.roundEpoch
    ensures NoMoreThan(s, Apply(s, ToolDone(result)))
  {
    AnswerAsksTheSame(s.history, ToolResult(s.control.todo[0], result));
  }

  lemma MergeIsForeseen(s: State)
    requires Enabled(s, MergeNow) && StopSeen(s)
    ensures NoMoreThan(s, Apply(s, MergeNow))
  {
    if AsksSummary(s.history + s.queue) {
      MergedAskAtMostLater(s.history, s.queue);
    }
  }

  lemma OthersAreForeseen(s: State, l: Label)
    requires Enabled(s, l) && s.stopEpoch > s.roundEpoch && !TakesSnapshot(l) && !InCheck(s.control)
    requires !l.Append? && !l.ToolDone? && !l.MergeNow?
    ensures NoMoreThan(s, Apply(s, l))
  {
  }

  lemma StartsAreForeseen(s: State, l: Label)
    requires Enabled(s, l) && StopSeen(s) && !TakesSnapshot(l)
    ensures NoMoreThan(s, Apply(s, l))
  {
    if l.Append? {
      AppendIsForeseen(s);
    } else if l.ToolDone? {
      ToolDoneIsForeseen(s, l.result);
    } else if l.MergeNow? {
      MergeIsForeseen(s);
    } else if !InCheck(s.control) {
      OthersAreForeseen(s, l);
    } else if l.EditContext? {
      EditForeseesNoMore(s, l.edit);
    } else if l.SkipHandOff? {
      SkipIsForeseen(s);
    } else {
      CheckIsForeseen(s, l);
    }
  }

  lemma {:induction false} ForeseenBounds(s: State, run: seq<Label>)
    requires Within(s, run) && StopSeen(s)
    ensures Starts(After(s, run)) + Foreseen(After(s, run)) <= Starts(s) + Foreseen(s)
    decreases |run|
  {
    if run != [] {
      assert run[0] in run;
      StartsAreForeseen(s, run[0]);
      StepKeepsAskInv(s, run[0]);
      ForeseenBounds(Apply(s, run[0]), run[1..]);
    }
  }

  /** From wherever in whatever run a stop is pending to the end of the round: no more is started than was
      foreseen there. */
  lemma StartsBounded(start: State, past: seq<Label>, run: seq<Label>)
    requires Init(start) && Legal(start, past) && After(start, past).StopRequested() && Within(After(start, past), run)
    ensures var s := After(start, past);
            Starts(After(s, run)) + Foreseen(After(s, run)) <= Starts(s) + Foreseen(s)
  {
    RunKeepsAskInv(start, past);
    InitKnown(start);
    RunKeepsKnown(start, past, false);
    ForeseenBounds(After(start, past), run);
  }

  // ----------------------------------------------------------- and that many can follow

  lemma Extend(s: State, run: seq<Label>, l: Label) returns (longer: seq<Label>)
    requires Within(s, run) && Enabled(After(s, run), l) && !TakesSnapshot(l)
    ensures Within(s, longer) && After(s, longer) == Apply(After(s, run), l)
    decreases |run|
  {
    if run == [] {
      LegalStep(s, l, [], Apply(s, l));
      longer := [l] + [];
    } else {
      var rest := Extend(Apply(s, run[0]), run[1..], l);
      LegalStep(s, run[0], rest, Apply(After(s, run), l));
      longer := [run[0]] + rest;
    }
  }

  /** The merge behind an answer finds a message, and the check behind it asks for a summary. */
  lemma AskBehind(s: State, run: seq<Label>) returns (longer: seq<Label>)
    requires Within(s, run)
    requires var t := After(s, run);
             t.control.AfterTools? && StopSeen(t) && AsksLater(t.history)
    ensures Within(s, longer) && Starts(After(s, longer)) == Starts(After(s, run)) + 1
  {
    var t := After(s, run);
    longer := Extend(s, run, Enqueue(Plain(User, "")));
    MergedAsk(t.history, t.queue + [Plain(User, "")]);
    longer := Extend(s, longer, MergeNow);
    longer := Extend(s, longer, AskSummary);
  }

  lemma FromCalling(s: State, run: seq<Label>) returns (longer: seq<Label>)
    requires Within(s, run)
    requires var t := After(s, run);
             t.control.Calling? && StopSeen(t) && AsksLater(t.history)
    ensures Within(s, longer) && Starts(After(s, longer)) == Starts(After(s, run)) + 1
  {
    StepKeepsAskInv(After(s, run), CheckTool);
    longer := Extend(s, run, CheckTool);
    longer := AskBehind(s, longer);
  }

  lemma FromAppended(s: State, run: seq<Label>) returns (longer: seq<Label>)
    requires Within(s, run)
    requires var t := After(s, run);
             t.control.Appended? && StopSeen(t) && AsksLater(t.history)
    ensures Within(s, longer) && Starts(After(s, longer)) == Starts(After(s, run)) + 1
  {
    StepKeepsAskInv(After(s, run), Announce);
    longer := Extend(s, run, Announce);
    if After(s, longer).control.Calling? {
      longer := FromCalling(s, longer);
    } else {
      longer := AskBehind(s, longer);
    }
  }

  lemma FromRunning(s: State, run: seq<Label>) returns (longer: seq<Label>)
    requires Within(s, run)
    requires var t := After(s, run);
             t.control.Running? && t.control.todo != [] && StopSeen(t) && AsksLater(t.history)
    ensures Within(s, longer) && Starts(After(s, longer)) == Starts(After(s, run)) + 1
  {
    var t := After(s, run);
    StepKeepsAskInv(t, ToolDone(""));
    AnswerAsksTheSame(t.history, ToolResult(t.control.todo[0], ""));
    longer := Extend(s, run, ToolDone(""));
    longer := FromCalling(s, longer);
  }

  lemma FromAccepted(s: State) returns (run: seq<Label>)
    requires s.control.Accepted? && StopSeen(s) && AsksLater(s.history)
    ensures Within(s, run) && Starts(After(s, run)) == Starts(s) + 1
  {
    StepKeepsAskInv(s, Append);
    AnswerAsksTheSame(s.history, s.control.reply);
    run := Extend(s, [], Append);
    run := FromAppended(s, run);
  }

  /** The check in front of a request asks, fails to get a summary and lets the request go. */
  lemma FromChecking(s: State) returns (run: seq<Label>)
    requires s.control.Checking? && StopSeen(s)
    ensures Within(s, run) && Starts(After(s, run)) == Starts(s) + Foreseen(s)
  {
    run := ToAsked(s);
    if After(s, run).control.check == HandingOff {
      run := Extend(s, run, EditContext(HandOff("", None)));
    } else if After(s, run).control.check == Summarizing {
      run := Extend(s, run, EditContext(Compress("", None)));
    }
    run := Extend(s, run, Send([]));
  }

  lemma ToAsked(s: State) returns (run: seq<Label>)
    requires s.control.Checking? && StopSeen(s)
    ensures Within(s, run)
    ensures var t := After(s, run);
            && t.control.Checking? && t.handOff.None? && t.StopRequested()
            && Starts(t) + 1 == Starts(s) + Foreseen(s)
  {
    run := [];
    if s.control.check == Free {
      if s.handOff.Some? && HasText(s.handOff.value) {
        run := Extend(s, run, AskHandOff);
      } else if s.handOff.Some? {
        run := Extend(s, run, SkipHandOff);
      } else if AsksSummary(s.history) {
        run := Extend(s, run, AskSummary);
      }
    }
  }

  /** From there that many can follow, wherever the stop falls: the bound is exact. The triggers of the
      checks are the provider's numbers, and a player may send a message at any moment. */
  lemma StartsReached(start: State, past: seq<Label>) returns (run: seq<Label>)
    requires Init(start) && Legal(start, past) && After(start, past).StopRequested()
    ensures var s := After(start, past);
            Within(s, run) && Starts(After(s, run)) == Starts(s) + Foreseen(s)
  {
    var s := After(start, past);
    RunKeepsAskInv(start, past);
    InitKnown(start);
    RunKeepsKnown(start, past, false);
    run := AllStarted(s);
  }

  lemma AllStarted(s: State) returns (run: seq<Label>)
    requires StopSeen(s) && OwnedInv(s)
    ensures Within(s, run) && Starts(After(s, run)) == Starts(s) + Foreseen(s)
  {
    run := [];
    if s.control.Checking? {
      run := FromChecking(s);
    } else if s.control.PostCheck? && Foreseen(s) > 0 {
      run := Extend(s, run, AskSummary);
    } else if s.control.Armed? {
      StepKeepsAskInv(s, StartTool);
      run := Extend(s, run, StartTool);
      if AsksLater(s.history) {
        run := FromRunning(s, run);
      }
    } else if Foreseen(s) > 0 {
      run := FromAnswer(s);
    }
  }

  lemma FromAnswer(s: State) returns (run: seq<Label>)
    requires StopSeen(s) && OwnedInv(s) && AsksLater(s.history)
    requires s.control.Accepted? || s.control.Appended? || s.control.Calling? || s.control.Running?
             || s.control.AfterTools?
    ensures Within(s, run) && Starts(After(s, run)) == Starts(s) + 1
  {
    run := [];
    match s.control
    case Accepted(_) => run := FromAccepted(s);
    case Appended(_) => run := FromAppended(s, run);
    case Calling(_) => run := FromCalling(s, run);
    case Running(_) => run := FromRunning(s, run);
    case AfterTools(_) => run := AskBehind(s, run);
  }

  // --------------------------------------------------------------- bounds for every run

  predicate LateAllowed(c: Control) {
    || c.Waiting? || c.Received? || c.Running? || c.Calling? || c == AfterTools(true) || (c.PostCheck? && c.again)
    || c.Top? || c.Aborting? || c.AbortValidating? || c.Finished? || c.Idle?
  }

  /** The summaries asked for and those a check has still to ask for are one at most. */
  predicate AskedAllowed(s: State) {
    match s.control
    case Checking(_) => s.asked + Foreseen(s) <= 2
    case PostCheck(_, _) => s.asked + Foreseen(s) <= 1
    case Idle => s.asked <= 1
    case Top => s.asked <= 1
    case Waiting(_) => s.asked <= 1
    case Received(_) => s.asked <= 1
    case Validating => s.asked <= 1
    case Aborting => s.asked <= 1
    case AbortValidating => s.asked <= 1
    case Finished(_) => s.asked <= 1
    case _ => s.asked == 0
  }

  predicate Counts(s: State) {
    && StopInv(s)
    && (s.late > 0 ==> s.late == 1 && LateAllowed(s.control))
    && AskedAllowed(s)
  }

  lemma CheckKeepsCounts(s: State, l: Label)
    requires AskInv(s) && Counts(s) && Enabled(s, l) && InCheck(s.control)
    ensures Counts(Apply(s, l))
  {
    if l.EditContext? {
      EditForeseesNoMore(s, l.edit);
    } else if l.SkipHandOff? {
      UsersAskNothing(s.history, "", None);
    }
  }

  lemma EnterKeepsCounts(s: State, l: Label)
    requires Counts(s) && Enabled(s, l) && (l.CheckStop? || l.MergeNow?)
    ensures Counts(Apply(s, l))
  {
  }

  lemma OthersKeepCounts(s: State, l: Label)
    requires Counts(s) && Enabled(s, l) && !InCheck(s.control) && !l.CheckStop? && !l.MergeNow?
    ensures Counts(Apply(s, l))
  {
    assert !InCheck(Apply(s, l).control);
  }

  lemma {:induction false} RunKeepsCounts(s: State, run: seq<Label>)
    requires AskInv(s) && Counts(s) && Legal(s, run)
    ensures Counts(After(s, run))
    decreases |run|
  {
    if run != [] {
      StepKeepsAskInv(s, run[0]);
      if InCheck(s.control) {
        CheckKeepsCounts(s, run[0]);
      } else if run[0].CheckStop? || run[0].MergeNow? {
        EnterKeepsCounts(s, run[0]);
      } else {
        OthersKeepCounts(s, run[0]);
      }
      RunKeepsCounts(Apply(s, run[0]), run[1..]);
    }
  }

  /** In every run: after a stop a round starts at most one more request with the history or tool call,
      and at most one summarizing request. */
  lemma AtMostOneLateStart(s: State, run: seq<Label>)
    requires Init(s) && Legal(s, run)
    ensures After(s, run).late <= 1 && After(s, run).asked <= 1
  {
    RunKeepsCounts(s, run);
  }

  /** From a message to an idle conversation to the switch of its model. */
  function Switched(message: Message): seq<Label> {
    [External(message)] + ([Manage] + ([Switch] + ([LetGo] + [])))
  }

  lemma SwitchLeavesHandOff(s: State, message: Message)
    requires Init(s) && message.role == User
    ensures Legal(s, Switched(message))
    ensures var t := After(s, Switched(message));
            t.control == Idle && t.queue == [] && t.handOff == Some(s.history + [message])
  {
    var s1 := Apply(s, External(message));
    var s2 := Apply(s1, Manage);
    var s3 := Apply(s2, Switch);
    var s4 := Apply(s3, LetGo);
    LegalStep(s3, LetGo, [], s4);
    LegalStep(s2, Switch, [LetGo] + [], s4);
    LegalStep(s1, Manage, [Switch] + ([LetGo] + []), s4);
    LegalStep(s, External(message), [Manage] + ([Switch] + ([LetGo] + [])), s4);
  }

  /** From there to a stop that falls into the check in front of the first request. */
  function StoppedInCheck(): seq<Label> {
    [Claim] + ([Begin] + ([MergeStart] + ([Inject(None)] + ([CheckStop] + ([RequestStop] + [])))))
  }

  lemma StopFallsIntoCheck(s: State)
    requires s.control == Idle && s.queue == []
    ensures Legal(s, StoppedInCheck())
    ensures var t := After(s, StoppedInCheck());
            t.control == Checking(Free) && t.StopRequested() && t.handOff == s.handOff && t.late == 0 && t.asked == 0
  {
    var s1 := Apply(s, Claim);
    var s2 := Apply(s1, Begin);
    var s3 := Apply(s2, MergeStart);
    var s4 := Apply(s3, Inject(None));
    var s5 := Apply(s4, CheckStop);
    var s6 := Apply(s5, RequestStop);
    LegalStep(s5, RequestStop, [], s6);
    LegalStep(s4, CheckStop, [RequestStop] + [], s6);
    LegalStep(s3, Inject(None), [CheckStop] + ([RequestStop] + []), s6);
    LegalStep(s2, MergeStart, [Inject(None)] + ([CheckStop] + ([RequestStop] + [])), s6);
    LegalStep(s1, Begin, [MergeStart] + ([Inject(None)] + ([CheckStop] + ([RequestStop] + []))), s6);
    LegalStep(s, Claim, [Begin] + ([MergeStart] + ([Inject(None)] + ([CheckStop] + ([RequestStop] + [])))), s6);
  }

  /** Both happens, from any fresh conversation: a stop in the check that has a hand-off to summarize is
      followed by that summarizing request and by the request itself. */
  lemma BothAreStarted(s: State, message: Message) returns (run: seq<Label>)
    requires Init(s) && message.role == User && message.content != ""
    ensures Legal(s, run) && After(s, run).late == 1 && After(s, run).asked == 1
  {
    SwitchLeavesHandOff(s, message);
    var t := After(s, Switched(message));
    StopFallsIntoCheck(t);
    var past := Switched(message) + StoppedInCheck();
    LegalConcat(s, Switched(message), StoppedInCheck());
    assert HasText(s.history + [message]) by {
      assert message in s.history + [message];
    }
    var more := StartsReached(s, past);
    LegalConcat(s, past, more);
    run := past + more;
    AtMostOneLateStart(s, run);
  }
}
