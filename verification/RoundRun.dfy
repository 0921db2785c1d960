/** One conversation's rounds as a machine: the owning thread walks through `response_ai`, other
    threads hand over messages and ask to stop between any two of its steps. */
module RoundRun {
  import opened Common
  import opened Messages
  import opened Window
  import Rounds
  import Validate
  import Merge

  datatype Outcome = Done | Stopped | Failed

  /** What a context check is waiting for: nothing, the summary of a conversation that was switched away,
      or the summary of the older rounds. */
  datatype Check = Free | HandingOff | Summarizing

  /** Where the owning thread stands. */
  datatype Control =
    | Idle
    | Managed                                   // a manager holds the round for a moment
    | Claimed                                   // owns the round, writes its questions
    | Starting                                  // in front of the queue merge
    | Injecting                                 // in front of the time note
    | Top                                       // loop top, in front of the stop check
    | Checking(check: Check)                    // context check of the request about to be sent
    | Waiting(request: History)
    | Received(reply: Message)                  // in front of the second stop check
    | Accepted(reply: Message)                  // in front of the append
    | Appended(reply: Message)                  // in front of the player's answer line
    | Calling(todo: seq<ToolCall>)              // in front of the stop check of the next call
    | Armed(todo: seq<ToolCall>)                // past that check
    | Running(todo: seq<ToolCall>)              // the first call of `todo` runs
    | AfterTools(called: bool)                  // in front of the second queue merge
    | PostCheck(again: bool, check: Check)      // context check after the request
    | Validating
    | Aborting
    | AbortValidating
    | Finished(outcome: Outcome)

  /** `handOff` is the conversation a model switch left to be summarized. What was started since a stop was
      accepted in this round: `late` counts the requests that carry the history and the tool calls, `asked`
      the summarizing requests of the context checks. */
  datatype State = State(
    history: History, queue: History, handOff: Option<History>, control: Control, stopEpoch: nat, roundEpoch: nat,
    late: nat, asked: nat)
  {
    predicate StopRequested() {
      stopEpoch != roundEpoch
    }

    function BeginRound(): State {
      this.(roundEpoch := stopEpoch, late := 0, asked := 0)
    }

    function Started(): State {
      if StopRequested() then this.(late := late + 1) else this
    }

    function Asked(): State {
      if StopRequested() then this.(asked := asked + 1) else this
    }

    function At(check: Check): State
      requires control.Checking? || control.PostCheck?
    {
      this.(control := if control.Checking? then Checking(check) else PostCheck(control.again, check))
    }
  }

  /** The atomic edits a context check is made of. */
  datatype Edit =
    | HandOff(prefix: string, summary: Option<string>)
    | Compress(prefix: string, summary: Option<string>)
    | CutTexts(cap: nat, note: Note)
    | DropOldest

  datatype Label =
    | Manage | LetGo | Claim | Write(question: Message) | Begin | MergeStart | Inject(note: Option<Message>)
    | CheckStop | AskHandOff | SkipHandOff | AskSummary | EditContext(edit: Edit) | Send(preamble: History)
    | Reply(reply: Message) | CheckReply | Append | Announce | CheckTool | StartTool | ToolDone(result: string)
    | MergeNow | Loop | ValidateEnd | DropUnanswered | Fail | NextRound(more: bool)
    | RequestStop | Enqueue(message: Message) | External(message: Message) | Switch

  function Edited(ms: History, e: Edit): History {
    match e
    case HandOff(prefix, summary) => HandedOver(ms, prefix, summary)
    case Compress(prefix, summary) => Compressed(ms, SummaryNote(prefix, summary))
    case CutTexts(cap, note) => Truncated(ms, cap, note)
    case DropOldest => Rounds.DropRounds(ms, 1)
  }

  /** When a check may make an edit. A hand-off comes before everything else. Where the older rounds hold
      no text there is nothing to summarize, and they go without a request. */
  predicate MayEdit(s: State, e: Edit)
    requires InCheck(s.control)
  {
    match e
    case HandOff(_, _) => s.control == Checking(HandingOff)
    case Compress(_, summary) =>
      || s.control.check == Summarizing
      || (MayWork(s) && summary.None? && Compressible(s.history) && !AsksSummary(s.history))
    case CutTexts(_, _) => MayWork(s)
    case DropOldest => MayWork(s)
  }

  predicate MayWork(s: State)
    requires InCheck(s.control)
  {
    s.control.check == Free && s.handOff.None?
  }

  predicate InCheck(c: Control) {
    c.Checking? || c.PostCheck?
  }

  predicate IsNote(m: Message) {
    m.role == System || m.role == User
  }

  predicate CallFree(ms: History) {
    forall m | m in ms :: m.role != Tool && !IsCalling(m)
  }

  function WithoutUnanswered(ms: History): History {
    if ms != [] && IsCalling(ms[|ms| - 1]) then ms[..|ms| - 1] else ms
  }

  function ToolResult(call: ToolCall, result: string): Message {
    Message(Tool, result, [], call.id, "", false)
  }

  /** The points of `response_ai` an exception can escape from. */
  predicate CanFail(c: Control) {
    c.Starting? || c.Injecting? || c.Waiting? || c.Accepted? || c.Appended? || c.Calling? || c.Armed? || c.Running?
  }

  /** Where the round can stand when a message goes straight into the history: whoever puts it there
      holds the history's lock since it found no round running. */
  predicate TakesExternal(c: Control) {
    c.Idle? || c.Managed? || c.Claimed? || c.Starting? || c == Finished(Failed)
  }

  predicate Enabled(s: State, l: Label) {
    match l
    case Manage => s.control.Idle?
    case LetGo => s.control.Managed? || s.control.Claimed? || s.control.Finished?
    case Claim => s.control.Idle?
    case Write(question) => s.control.Claimed? && question.role == User
    case Begin => s.control.Claimed?
    case MergeStart => s.control.Starting?
    case Inject(note) => s.control.Injecting? && (note.Some? ==> note.value.role == User)
    case CheckStop => s.control.Top?
    case AskHandOff => s.control == Checking(Free) && s.handOff.Some? && HasText(s.handOff.value)
    case SkipHandOff => s.control == Checking(Free) && s.handOff.Some? && !HasText(s.handOff.value)
    case AskSummary => InCheck(s.control) && MayWork(s) && AsksSummary(s.history)
    case EditContext(e) => InCheck(s.control) && MayEdit(s, e)
    case Send(preamble) => s.control.Checking? && MayWork(s) && CallFree(preamble)
    case Reply(reply) => s.control.Waiting? && reply.role == Assistant
    case CheckReply => s.control.Received?
    case Append => s.control.Accepted?
    case Announce => s.control.Appended?
    case CheckTool => s.control.Calling?
    case StartTool => s.control.Armed?
    case ToolDone(_) => s.control.Running? && s.control.todo != []
    case MergeNow => s.control.AfterTools?
    case Loop => s.control.PostCheck? && s.control.check == Free
    case ValidateEnd => s.control.Validating? || s.control.AbortValidating?
    case DropUnanswered => s.control.Aborting?
    case Fail => CanFail(s.control)
    case NextRound(more) => s.control.Finished? && (more || s.queue == [])
    case RequestStop => true
    case Enqueue(message) => message.role == User
    case External(message) => TakesExternal(s.control) && message.role == User
    case Switch => s.control.Managed?
  }

  function Apply(s: State, l: Label): State
    requires Enabled(s, l)
  {
    match l
    case Manage => s.BeginRound().(control := Managed)
    case LetGo => s.(control := Idle)
    case Claim => s.BeginRound().(control := Claimed)
    case Write(question) => s.(history := s.history + [question])
    case Begin => s.BeginRound().(control := Starting)
    case MergeStart => s.(history := s.history + s.queue, queue := [], control := Injecting)
    case Inject(note) =>
      s.(history := if note.Some? then Merge.Noted(s.history, note.value) else s.history, control := Top)
    case CheckStop => s.(control := if s.StopRequested() then Aborting else Checking(Free))
    case AskHandOff => s.Asked().(handOff := None).At(HandingOff)
    case SkipHandOff => s.(handOff := None)
    case AskSummary => s.Asked().At(Summarizing)
    case EditContext(e) => s.(history := Edited(s.history, e)).At(Free)
    case Send(preamble) => s.Started().(control := Waiting(preamble + Merge.Merged(s.history)))
    case Reply(reply) => s.(control := Received(reply))
    case CheckReply => s.(control := if s.StopRequested() then Aborting else Accepted(s.control.reply))
    case Append => s.(history := s.history + [s.control.reply], control := Appended(s.control.reply))
    case Announce =>
      var calls := s.control.reply.calls;
      s.(control := if calls != [] then Calling(calls) else AfterTools(false))
    case CheckTool =>
      s.(control := if s.control.todo == [] || s.StopRequested() then AfterTools(true) else Armed(s.control.todo))
    case StartTool => s.Started().(control := Running(s.control.todo))
    case ToolDone(result) =>
      s.(history := s.history + [ToolResult(s.control.todo[0], result)], control := Calling(s.control.todo[1..]))
    case MergeNow =>
      s.(history := s.history + s.queue, queue := [], control := PostCheck(s.control.called || s.queue != [], Free))
    case Loop => s.(control := if s.control.again then Top else Validating)
    case ValidateEnd =>
      s.(history := Validate.Validated(s.history),
         control := Finished(if s.control.Validating? then Done else Stopped))
    case DropUnanswered => s.(history := WithoutUnanswered(s.history), control := AbortValidating)
    case Fail => s.(control := Finished(Failed))
    case NextRound(more) => if more then s.BeginRound().(control := Claimed) else s.(control := Idle)
    case RequestStop => if s.control.Idle? then s else s.(stopEpoch := s.stopEpoch + 1)
    case Enqueue(message) => s.(queue := s.queue + [message])
    case External(message) => s.(history := s.history + [message])
    case Switch => s.(history := [], queue := [], handOff := if s.history != [] then Some(s.history) else s.handOff)
  }

  ghost predicate Legal(s: State, run: seq<Label>)
    decreases |run|
  {
    run == [] || (Enabled(s, run[0]) && Legal(Apply(s, run[0]), run[1..]))
  }

  ghost function After(s: State, run: seq<Label>): State
    requires Legal(s, run)
    decreases |run|
  {
    if run == [] then s else After(Apply(s, run[0]), run[1..])
  }

  lemma {:induction false} LegalConcat(s: State, a: seq<Label>, b: seq<Label>)
    requires Legal(s, a) && Legal(After(s, a), b)
    ensures Legal(s, a + b) && After(s, a + b) == After(After(s, a), b)
    decreases |a|
  {
    if a == [] {
      assert a + b == b;
    } else {
      assert (a + b)[1..] == a[1..] + b;
      LegalConcat(Apply(s, a[0]), a[1..], b);
    }
  }

  // -------------------------------------------------------------------- the invariant

  function TodoIds(todo: seq<ToolCall>): set<string> {
    set c | c in todo && c.id != "" :: c.id
  }

  /** The calls whose results are still to come. */
  function Outstanding(c: Control): seq<ToolCall> {
    match c
    case Appended(reply) => reply.calls
    case Calling(todo) => todo
    case Armed(todo) => todo
    case Running(todo) => todo
    case _ => []
  }

  /** Points where a stop may have left a half-answered group for the abort to remove. */
  predicate MayBeBroken(c: Control) {
    c.Aborting? || c.AbortValidating?
  }

  predicate MayBeBrokenByStop(c: Control) {
    c == AfterTools(true) || (c.PostCheck? && c.again) || c.Top?
  }

  /** What holds even after a round that died in the middle of a group: no result without its call,
      and a history that a round finished or stopped with is well formed. */
  ghost predicate OwnedInv(s: State) {
    && (forall m | m in s.queue :: IsNote(m))
    && Owned(s.history)
    && (forall c | c in Outstanding(s.control) :: c.id in OwnerAfterAll({}, s.history))
    && (s.control.Running? || s.control.Armed? ==> Outstanding(s.control) != [])
    && (s.control.Received? || s.control.Accepted? || s.control.Appended? ==> s.control.reply.role == Assistant)
    && (s.control.Finished? && s.control.outcome != Failed ==> WellFormed(s.history))
  }

  /** Groups are whole, or open with exactly the outstanding calls, or a seen stop will repair them. */
  ghost predicate WholeGroups(s: State) {
    && (|| MayBeBroken(s.control)
        || (MayBeBrokenByStop(s.control) && s.StopRequested())
        || GroupedBut(s.history, TodoIds(Outstanding(s.control))))
    && (s.control.Waiting? ==> WellFormed(s.control.request))
  }

  predicate StopInv(s: State) {
    && s.stopEpoch >= s.roundEpoch
    && (s.late + s.asked > 0 ==> s.StopRequested())
  }

  ghost predicate Inv(s: State) {
    OwnedInv(s) && WholeGroups(s) && StopInv(s)
  }

  /** A fresh conversation, or one restored without stray results. */
  predicate Init(s: State) {
    && WellFormed(s.history)
    && (forall m | m in s.queue :: IsNote(m))
    && s.handOff.None? && s.control == Idle && s.stopEpoch == s.roundEpoch && s.late == 0 && s.asked == 0
  }

  /** Some call still waits for a result that none of the results at the end is. */
  predicate Unanswered(s: State) {
    exists c | c in Outstanding(s.control) :: c.id != "" && c.id !in Answers(TrailingTools(s.history))
  }

  /** The one failure that leaves damage. */
  predicate FailsOpen(s: State, l: Label) {
    l.Fail? && Unanswered(s)
  }

  /** Whether the last such failure came after the last repair or fresh start. */
  function Damage(s: State, l: Label, damaged: bool): bool {
    if FailsOpen(s, l) then true else if l.ValidateEnd? || l.Switch? then false else damaged
  }

  ghost predicate Damaged(s: State, run: seq<Label>, damaged: bool)
    requires Legal(s, run)
    decreases |run|
  {
    if run == [] then damaged else Damaged(Apply(s, run[0]), run[1..], Damage(s, run[0], damaged))
  }

  lemma NotesWellFormed(ms: History, notes: History)
    requires forall m | m in notes :: IsNote(m)
    ensures WellFormed(ms) ==> WellFormed(ms + notes)
    ensures Owned(ms) ==> Owned(ms + notes)
  {
    CallFreeWellFormed(notes);
    if WellFormed(ms) {
      WellFormedConcat(ms, notes);
    }
    Merge.OwnedAppend(ms, notes);
  }

  lemma EditWellFormed(ms: History, e: Edit)
    ensures WellFormed(ms) ==> WellFormed(Edited(ms, e))
    ensures Owned(ms) ==> Owned(Edited(ms, e))
  {
    match e
    case HandOff(prefix, summary) => HandOffWellFormed(ms, prefix, summary);
    case Compress(prefix, summary) => CompressedWellFormed(ms, prefix, summary);
    case CutTexts(cap, note) => TruncatedWellFormed(ms, cap, note);
    case DropOldest => Rounds.DropWellFormed(ms, 1);
  }

  /** Apart from a hand-off, no edit of a check gives a later one more to summarize. */
  lemma EditAsksNoMore(ms: History, e: Edit)
    requires !e.HandOff?
    ensures Compressible(Edited(ms, e)) ==> Compressible(ms) && !e.Compress?
    ensures AsksSummary(Edited(ms, e)) ==> AsksSummary(ms)
  {
    match e
    case Compress(prefix, summary) => CompressedAsksNothing(ms, prefix, summary);
    case CutTexts(cap, note) => TruncatedAsksTheSame(ms, cap, note);
    case DropOldest => DroppedAsksNoMore(ms);
  }

  lemma RequestWellFormed(preamble: History, ms: History)
    requires CallFree(preamble) && WellFormed(ms)
    ensures WellFormed(preamble + Merge.Merged(ms))
  {
    CallFreeWellFormed(preamble);
    Merge.MergedWellFormed(ms);
    WellFormedConcat(preamble, Merge.Merged(ms));
  }

  lemma AppendReply(ms: History, reply: Message)
    requires Owned(ms) && reply.role == Assistant
    ensures Owned(ms + [reply])
    ensures Grouped(ms) ==> GroupedBut(ms + [reply], TodoIds(reply.calls))
    ensures OwnerAfterAll({}, ms + [reply]) == OfferedIds(reply)
  {
    assert [reply][1..] == [];
    assert CallIds(reply) == TodoIds(reply.calls);
    if Grouped(ms) {
      GroupedConcat(ms, [reply], TodoIds(reply.calls));
    }
    OwnedConcat(ms, [reply], {});
    assert OwnerAfterAll(OwnerAfterAll({}, ms), [reply]) == OwnerAfter(OwnerAfterAll({}, ms), reply);
  }

  lemma ResultOwned(ms: History, call: ToolCall, result: string)
    requires Owned(ms) && call.id in OwnerAfterAll({}, ms)
    ensures Owned(ms + [ToolResult(call, result)])
    ensures OwnerAfterAll({}, ms + [ToolResult(call, result)]) == OwnerAfterAll({}, ms)
  {
    assert [ToolResult(call, result)][1..] == [];
    OwnedConcat(ms, [ToolResult(call, result)], {});
  }

  lemma ResultCloses(ms: History, todo: seq<ToolCall>, result: string)
    requires todo != [] && GroupedBut(ms, TodoIds(todo))
    ensures GroupedBut(ms + [ToolResult(todo[0], result)], TodoIds(todo[1..]))
  {
    var t := ToolResult(todo[0], result);
    GroupedAppendResult(ms, TodoIds(todo), t);
    assert TodoIds(todo) - {t.answers} <= TodoIds(todo[1..]) by {
      assert todo == [todo[0]] + todo[1..];
    }
    GroupedMore(ms + [t], TodoIds(todo) - {t.answers}, TodoIds(todo[1..]));
  }

  lemma AbortKeepsOwned(ms: History)
    requires Owned(ms)
    ensures Owned(WithoutUnanswered(ms))
  {
    if ms != [] {
      assert ms == ms[..|ms| - 1] + [ms[|ms| - 1]];
      OwnedConcat(ms[..|ms| - 1], [ms[|ms| - 1]], {});
    }
  }

  // ------------------------------------------------------------ every step, owned half

  predicate ChangesHistory(l: Label) {
    || l.Write? || l.MergeStart? || l.MergeNow? || l.External? || l.Switch? || l.Inject? || l.EditContext?
    || l.Append? || l.ToolDone? || l.ValidateEnd? || l.DropUnanswered?
  }

  lemma QuietInRoundKeepsOwned(s: State, l: Label)
    requires OwnedInv(s) && Enabled(s, l) && !ChangesHistory(l)
    requires l.Reply? || l.CheckReply? || l.Announce? || l.CheckTool? || l.StartTool?
    ensures OwnedInv(Apply(s, l))
  {
  }

  lemma QuietStepKeepsOwned(s: State, l: Label)
    requires OwnedInv(s) && Enabled(s, l) && !ChangesHistory(l)
    ensures OwnedInv(Apply(s, l))
  {
    if l.Reply? || l.CheckReply? || l.Announce? || l.CheckTool? || l.StartTool? {
      QuietInRoundKeepsOwned(s, l);
    } else {
      assert Outstanding(Apply(s, l).control) == [] || Apply(s, l).control == s.control;
    }
  }

  lemma HandOverKeepsOwned(s: State, l: Label)
    requires OwnedInv(s) && Enabled(s, l)
    requires l.Write? || l.MergeStart? || l.MergeNow? || l.External? || l.Switch? || l.Inject? || l.EditContext?
    ensures OwnedInv(Apply(s, l))
  {
    match l
    case Write(question) => NotesWellFormed(s.history, [question]);
    case MergeStart => NotesWellFormed(s.history, s.queue);
    case MergeNow => NotesWellFormed(s.history, s.queue);
    case External(message) => NotesWellFormed(s.history, [message]);
    case Inject(note) =>
      if note.Some? {
        Merge.NotedWellFormed(s.history, note.value);
      }
    case EditContext(e) => EditWellFormed(s.history, e);
    case _ =>
  }

  lemma GroupStepKeepsOwned(s: State, l: Label)
    requires OwnedInv(s) && Enabled(s, l) && (l.Append? || l.ToolDone?)
    ensures OwnedInv(Apply(s, l))
  {
    if l.Append? {
      AppendReply(s.history, s.control.reply);
    } else {
      ResultOwned(s.history, s.control.todo[0], l.result);
    }
  }

  lemma RepairKeepsOwned(s: State, l: Label)
    requires OwnedInv(s) && Enabled(s, l) && (l.ValidateEnd? || l.DropUnanswered?)
    ensures OwnedInv(Apply(s, l))
  {
    if l.ValidateEnd? {
      Validate.ValidatedWellFormed(s.history);
    } else {
      AbortKeepsOwned(s.history);
    }
  }

  lemma StepKeepsOwned(s: State, l: Label)
    requires OwnedInv(s) && Enabled(s, l)
    ensures OwnedInv(Apply(s, l))
  {
    if !ChangesHistory(l) {
      QuietStepKeepsOwned(s, l);
    } else if l.Append? || l.ToolDone? {
      GroupStepKeepsOwned(s, l);
    } else if l.ValidateEnd? || l.DropUnanswered? {
      RepairKeepsOwned(s, l);
    } else {
      HandOverKeepsOwned(s, l);
    }
  }

  // ---------------------------------------------------------- every step, grouped half

  /** Whether a failure leaves an open group is decided by the calls still to come and the results at
      the end of the history. */
  lemma UnansweredExactly(s: State)
    requires Inv(s) && CanFail(s.control)
    ensures Grouped(s.history) <==> !Unanswered(s)
  {
    var open := TodoIds(Outstanding(s.control));
    ClosedExactly(s.history, open);
    if Unanswered(s) {
      var c :| c in Outstanding(s.control) && c.id != "" && c.id !in Answers(TrailingTools(s.history));
      assert c.id in open;
    }
  }

  lemma FailKeepsWhole(s: State)
    requires Inv(s) && Enabled(s, Fail) && !Unanswered(s)
    ensures WholeGroups(Apply(s, Fail))
  {
    UnansweredExactly(s);
    assert TodoIds([]) == {};
  }

  lemma ChecksKeepWhole(s: State, l: Label)
    requires Inv(s) && Enabled(s, l)
    requires l.CheckStop? || l.CheckReply? || l.CheckTool? || l.Loop? || l.RequestStop?
    ensures WholeGroups(Apply(s, l))
  {
    assert TodoIds([]) == {};
  }

  lemma BetweenRoundsKeepsWhole(s: State, l: Label)
    requires Inv(s) && Enabled(s, l)
    requires l.Manage? || l.LetGo? || l.Claim? || l.Begin? || l.NextRound? || l.Enqueue?
    ensures WholeGroups(Apply(s, l))
  {
    assert TodoIds([]) == {};
  }

  lemma AskingKeepsWhole(s: State, l: Label)
    requires Inv(s) && Enabled(s, l) && (l.AskHandOff? || l.SkipHandOff? || l.AskSummary?)
    ensures WholeGroups(Apply(s, l))
  {
    assert TodoIds([]) == {};
  }

  lemma AnswerStepKeepsWhole(s: State, l: Label)
    requires Inv(s) && Enabled(s, l) && (l.Reply? || l.Announce? || l.StartTool?)
    ensures WholeGroups(Apply(s, l))
  {
    assert TodoIds([]) == {};
  }

  lemma QuietStepKeepsWhole(s: State, l: Label)
    requires Inv(s) && Enabled(s, l) && !ChangesHistory(l) && !l.Fail? && !l.Send?
    ensures WholeGroups(Apply(s, l))
  {
    if l.CheckStop? || l.CheckReply? || l.CheckTool? || l.Loop? || l.RequestStop? {
      ChecksKeepWhole(s, l);
    } else if l.Manage? || l.LetGo? || l.Claim? || l.Begin? || l.NextRound? || l.Enqueue? {
      BetweenRoundsKeepsWhole(s, l);
    } else if l.Reply? || l.Announce? || l.StartTool? {
      AnswerStepKeepsWhole(s, l);
    } else {
      AskingKeepsWhole(s, l);
    }
  }

  lemma HandOverKeepsWhole(s: State, l: Label)
    requires Inv(s) && Enabled(s, l)
    requires l.Write? || l.MergeStart? || l.MergeNow? || l.External? || l.Switch?
    ensures WholeGroups(Apply(s, l))
  {
    assert TodoIds([]) == {};
    match l
    case Write(question) => NotesWellFormed(s.history, [question]);
    case MergeStart => NotesWellFormed(s.history, s.queue);
    case MergeNow => NotesWellFormed(s.history, s.queue);
    case External(message) => NotesWellFormed(s.history, [message]);
    case _ =>
  }

  lemma OwnerStepKeepsWhole(s: State, l: Label)
    requires Inv(s) && Enabled(s, l) && (l.Inject? || l.EditContext?)
    ensures WholeGroups(Apply(s, l))
  {
    assert TodoIds([]) == {};
    match l
    case Inject(note) =>
      if note.Some? {
        Merge.NotedWellFormed(s.history, note.value);
      }
    case EditContext(e) => EditWellFormed(s.history, e);
  }

  lemma SendKeepsWhole(s: State, preamble: History)
    requires Inv(s) && Enabled(s, Send(preamble))
    ensures WholeGroups(Apply(s, Send(preamble)))
  {
    assert TodoIds([]) == {};
    RequestWellFormed(preamble, s.history);
  }

  lemma AppendKeepsWhole(s: State)
    requires Inv(s) && Enabled(s, Append)
    ensures WholeGroups(Apply(s, Append))
  {
    assert TodoIds([]) == {};
    AppendReply(s.history, s.control.reply);
  }

  lemma ToolDoneKeepsWhole(s: State, result: string)
    requires Inv(s) && Enabled(s, ToolDone(result))
    ensures WholeGroups(Apply(s, ToolDone(result)))
  {
    ResultCloses(s.history, s.control.todo, result);
  }

  lemma StepKeepsWhole(s: State, l: Label)
    requires Inv(s) && Enabled(s, l) && !FailsOpen(s, l)
    ensures WholeGroups(Apply(s, l))
  {
    if l.Fail? {
      FailKeepsWhole(s);
    } else if l.Append? {
      AppendKeepsWhole(s);
    } else if l.ToolDone? {
      ToolDoneKeepsWhole(s, l.result);
    } else if l.ValidateEnd? {
      RepairMakesWhole(s);
    } else if l.Send? {
      SendKeepsWhole(s, l.preamble);
    } else if l.Inject? || l.EditContext? {
      OwnerStepKeepsWhole(s, l);
    } else if l.Write? || l.MergeStart? || l.MergeNow? || l.External? || l.Switch? {
      HandOverKeepsWhole(s, l);
    } else if !l.DropUnanswered? {
      QuietStepKeepsWhole(s, l);
    }
  }

  /** The check at the end of a round repairs whatever earlier rounds left. */
  lemma RepairMakesWhole(s: State)
    requires OwnedInv(s) && Enabled(s, ValidateEnd)
    ensures WholeGroups(Apply(s, ValidateEnd))
  {
    assert TodoIds([]) == {};
    Validate.ValidatedWellFormed(s.history);
  }

  lemma StepKeepsStop(s: State, l: Label)
    requires StopInv(s) && Enabled(s, l)
    ensures StopInv(Apply(s, l))
  {
  }

  lemma StepKeepsInv(s: State, l: Label)
    requires Inv(s) && Enabled(s, l) && !FailsOpen(s, l)
    ensures Inv(Apply(s, l))
  {
    StepKeepsOwned(s, l);
    StepKeepsWhole(s, l);
    StepKeepsStop(s, l);
  }

  // ------------------------------------------------------------------ over whole runs

  ghost predicate Known(s: State, damaged: bool) {
    OwnedInv(s) && StopInv(s) && (!damaged ==> WholeGroups(s))
  }

  lemma StepKeepsKnown(s: State, l: Label, damaged: bool)
    requires Known(s, damaged) && Enabled(s, l)
    ensures Known(Apply(s, l), Damage(s, l, damaged))
  {
    StepKeepsOwned(s, l);
    StepKeepsStop(s, l);
    if !damaged && !FailsOpen(s, l) {
      StepKeepsWhole(s, l);
    } else if l.ValidateEnd? {
      RepairMakesWhole(s);
    } else if l.Switch? {
      assert TodoIds([]) == {};
    }
  }

  lemma {:induction false} RunKeepsKnown(s: State, run: seq<Label>, damaged: bool)
    requires Known(s, damaged) && Legal(s, run)
    ensures Known(After(s, run), Damaged(s, run, damaged))
    decreases |run|
  {
    if run != [] {
      StepKeepsKnown(s, run[0], damaged);
      RunKeepsKnown(Apply(s, run[0]), run[1..], Damage(s, run[0], damaged));
    }
  }

  lemma InitKnown(s: State)
    requires Init(s)
    ensures Known(s, false)
  {
    assert TodoIds([]) == {};
  }

  /** Whatever other threads do meanwhile, and however earlier rounds died: every history a finished or
      stopped round leaves behind is well formed. And unless a round died with a call unanswered since
      the last repair, so is every request that is sent and every history between the rounds. */
  lemma RequestsAndHistoriesWellFormed(s: State, run: seq<Label>)
    requires Init(s) && Legal(s, run)
    ensures var t := After(s, run);
            && (t.control.Finished? && t.control.outcome != Failed ==> WellFormed(t.history))
            && (!Damaged(s, run, false) ==>
                  && (t.control.Waiting? ==> WellFormed(t.control.request))
                  && (t.control.Finished? || t.control.Idle? ==> WellFormed(t.history)))
  {
    assert TodoIds([]) == {};
    InitKnown(s);
    RunKeepsKnown(s, run, false);
  }

  // ------------------------------------------------------------- handed-over messages

  /** What a merge put behind the history, read off the histories before and after. */
  function Gain(l: Label, before: History, behind: History): History {
    if (l.MergeStart? || l.MergeNow?) && before <= behind then behind[|before|..] else []
  }

  ghost function Merged(s: State, run: seq<Label>): History
    requires Legal(s, run)
    decreases |run|
  {
    if run == [] then []
    else Gain(run[0], s.history, Apply(s, run[0]).history) + Merged(Apply(s, run[0]), run[1..])
  }

  function HandedBy(l: Label): History {
    if l.Enqueue? then [l.message] else []
  }

  function Handed(run: seq<Label>): History {
    if run == [] then [] else HandedBy(run[0]) + Handed(run[1..])
  }

  lemma StepHands(s: State, l: Label)
    requires Enabled(s, l) && (l.Switch? ==> s.queue == [])
    ensures Gain(l, s.history, Apply(s, l).history) + Apply(s, l).queue == s.queue + HandedBy(l)
  {
  }

  /** A model switch finds messages waiting, which it clears away. */
  predicate Clears(s: State, l: Label) {
    l.Switch? && s.queue != []
  }

  ghost predicate NothingCleared(s: State, run: seq<Label>)
    requires Legal(s, run)
    decreases |run|
  {
    run == [] || (!Clears(s, run[0]) && NothingCleared(Apply(s, run[0]), run[1..]))
  }

  /** How many messages the switches of a run clear away. */
  ghost function Cleared(s: State, run: seq<Label>): nat
    requires Legal(s, run)
    decreases |run|
  {
    if run == [] then 0
    else (if Clears(s, run[0]) then |s.queue| else 0) + Cleared(Apply(s, run[0]), run[1..])
  }

  lemma {:induction false} HandedMessagesCounted(s: State, run: seq<Label>)
    requires Legal(s, run)
    ensures |Merged(s, run)| + |After(s, run).queue| + Cleared(s, run) == |s.queue| + |Handed(run)|
    ensures Cleared(s, run) == 0 <==> NothingCleared(s, run)
    decreases |run|
  {
    if run != [] {
      HandedMessagesCounted(Apply(s, run[0]), run[1..]);
      if !Clears(s, run[0]) {
        StepHands(s, run[0]);
        var t := Apply(s, run[0]);
        assert |Gain(run[0], s.history, t.history) + t.queue| == |s.queue + HandedBy(run[0])|;
      }
    }
  }

  lemma {:induction false} HandedMessagesInOrder(s: State, run: seq<Label>)
    requires Legal(s, run) && NothingCleared(s, run)
    ensures Merged(s, run) + After(s, run).queue == s.queue + Handed(run)
    decreases |run|
  {
    if run != [] {
      var t, rest := Apply(s, run[0]), run[1..];
      StepHands(s, run[0]);
      HandedMessagesInOrder(t, rest);
      HandedOn(Gain(run[0], s.history, t.history), Merged(t, rest), After(t, rest).queue, t.queue, Handed(rest),
               s.queue, HandedBy(run[0]));
    }
  }

  /** A message another thread hands over is not lost, doubled or put out of order, whenever it comes:
      what the merges appended, followed by what still waits, is what was waiting and handed over. That
      holds exactly as long as no model switch finds messages waiting. */
  lemma HandedMessagesArrive(s: State, run: seq<Label>)
    requires Legal(s, run)
    ensures Merged(s, run) + After(s, run).queue == s.queue + Handed(run) <==> NothingCleared(s, run)
  {
    HandedMessagesCounted(s, run);
    if NothingCleared(s, run) {
      HandedMessagesInOrder(s, run);
    } else {
      assert |Merged(s, run) + After(s, run).queue| < |s.queue + Handed(run)|;
    }
  }

  lemma HandedOn(gain: History, merged: History, left: History, queue: History, handed: History,
                 before: History, first: History)
    requires gain + queue == before + first && merged + left == queue + handed
    ensures (gain + merged) + left == before + (first + handed)
  {
    assert (gain + merged) + left == gain + (merged + left) == (gain + queue) + handed;
    assert before + (first + handed) == (before + first) + handed;
  }

  /** A message that finds a round running but is queued after its end, and a manager that switches
      the model before the next round. */
  function LostMessage(message: Message): seq<Label> {
    [Enqueue(message)] + ([Manage] + ([Switch] + ([LetGo] + [])))
  }

  lemma HandedStep(s: State, l: Label, rest: seq<Label>)
    requires Enabled(s, l) && Legal(Apply(s, l), rest) && Legal(s, [l] + rest)
    ensures Handed([l] + rest) == HandedBy(l) + Handed(rest)
    ensures Merged(s, [l] + rest) == Gain(l, s.history, Apply(s, l).history) + Merged(Apply(s, l), rest)
  {
    assert ([l] + rest)[1..] == rest;
  }

  /** Its sender was told that it waits, and it is gone. */
  lemma SwitchLosesMessage(s: State, message: Message)
    requires Init(s) && s.queue == [] && message.role == User
    ensures Legal(s, LostMessage(message)) && Handed(LostMessage(message)) == [message]
    ensures var t := After(s, LostMessage(message));
            t.history == [] && t.queue == [] && Merged(s, LostMessage(message)) == []
  {
    var s1 := Apply(s, Enqueue(message));
    var s2 := Apply(s1, Manage);
    var s3 := Apply(s2, Switch);
    var s4 := Apply(s3, LetGo);
    LegalStep(s3, LetGo, [], s4);
    LegalStep(s2, Switch, [LetGo] + [], s4);
    LegalStep(s1, Manage, [Switch] + ([LetGo] + []), s4);
    LegalStep(s, Enqueue(message), [Manage] + ([Switch] + ([LetGo] + [])), s4);
    HandedStep(s3, LetGo, []);
    HandedStep(s2, Switch, [LetGo] + []);
    HandedStep(s1, Manage, [Switch] + ([LetGo] + []));
    HandedStep(s, Enqueue(message), [Manage] + ([Switch] + ([LetGo] + [])));
  }

  // ----------------------------------------------------------------------- failed rounds

  /** A round that dies by an exception leaves a well-formed history behind exactly when the results at
      its end answer every call that was still to come (a call without an id needs no answer). */
  lemma FailureHarmlessExactly(s: State, run: seq<Label>)
    requires Init(s) && Legal(s, run) && !Damaged(s, run, false) && Enabled(After(s, run), Fail)
    ensures var t := After(s, run);
            WellFormed(Apply(t, Fail).history) <==>
              forall c | c in Outstanding(t.control) && c.id != "" :: c.id in Answers(TrailingTools(t.history))
  {
    InitKnown(s);
    RunKeepsKnown(s, run, false);
    UnansweredExactly(After(s, run));
  }

  lemma LegalStep(s: State, l: Label, rest: seq<Label>, t: State)
    requires Enabled(s, l) && Legal(Apply(s, l), rest) && After(Apply(s, l), rest) == t
    ensures Legal(s, [l] + rest) && After(s, [l] + rest) == t
  {
    assert ([l] + rest)[1..] == rest;
  }

  lemma UnansweredStaysBroken(before: History, reply: Message, question: Message)
    requires IsCalling(reply) && CallIds(reply) != {} && question.role == User
    ensures !Grouped(before + [reply] + [question])
  {
    var tail := [reply, question];
    assert before + [reply] + [question] == before + tail;
    assert tail[1..] == [question] && LeadingTools([question]) == [];
    if Grouped(before + tail) {
      GroupedSuffix(before, tail, {});
    }
  }

  /** No message is queued and no hand-off is pending. */
  predicate NothingWaits(s: State) {
    s.queue == [] && s.handOff.None?
  }

  /** From the start of a round to its first request, with nothing waiting and no time note due. */
  function Opening(): seq<Label> {
    [Begin] + ([MergeStart] + ([Inject(None)] + ([CheckStop] + ([Send([])] + []))))
  }

  lemma OpeningSendsHistory(s: State)
    requires s.control.Claimed? && NothingWaits(s)
    ensures Legal(s, Opening())
    ensures After(s, Opening()) == s.BeginRound().(control := Waiting(Merge.Merged(s.history)))
  {
    var s1 := Apply(s, Begin);
    var s2 := Apply(s1, MergeStart);
    var s3 := Apply(s2, Inject(None));
    var s4 := Apply(s3, CheckStop);
    assert s.history + [] == s.history && s4.control == Checking(Free);
    var s5 := Apply(s4, Send([]));
    assert [] + Merge.Merged(s.history) == Merge.Merged(s.history);
    LegalStep(s4, Send([]), [], s5);
    LegalStep(s3, CheckStop, [Send([])] + [], s5);
    LegalStep(s2, Inject(None), [CheckStop] + ([Send([])] + []), s5);
    LegalStep(s1, MergeStart, [Inject(None)] + ([CheckStop] + ([Send([])] + [])), s5);
    LegalStep(s, Begin, [MergeStart] + ([Inject(None)] + ([CheckStop] + ([Send([])] + []))), s5);
  }

  /** From the round's failure to the next request, with one new question. */
  function Retry(question: Message): seq<Label> {
    [Fail] + ([NextRound(true)] + ([Write(question)] + Opening()))
  }

  lemma RetrySendsHistory(s: State, question: Message)
    requires s.control.Appended? && NothingWaits(s) && question.role == User
    ensures Legal(s, Retry(question))
    ensures After(s, Retry(question)).control == Waiting(Merge.Merged(s.history + [question]))
  {
    var s1 := Apply(s, Fail);
    var s2 := Apply(s1, NextRound(true));
    var s3 := Apply(s2, Write(question));
    OpeningSendsHistory(s3);
    var last := After(s3, Opening());
    LegalStep(s2, Write(question), Opening(), last);
    LegalStep(s1, NextRound(true), [Write(question)] + Opening(), last);
    LegalStep(s, Fail, [NextRound(true)] + ([Write(question)] + Opening()), last);
  }

  /** From the start of a round to the point where the model's answer has been stored. */
  function ToAnswer(reply: Message): seq<Label> {
    Opening() + ([Reply(reply)] + ([CheckReply] + ([Append] + [])))
  }

  lemma AnswerStored(s: State, reply: Message)
    requires s.control.Claimed? && NothingWaits(s) && reply.role == Assistant
    ensures Legal(s, ToAnswer(reply))
    ensures After(s, ToAnswer(reply)) ==
            s.BeginRound().(control := Appended(reply), history := s.history + [reply])
  {
    OpeningSendsHistory(s);
    var s3 := After(s, Opening());
    var s4 := Apply(s3, Reply(reply));
    var s5 := Apply(s4, CheckReply);
    var s6 := Apply(s5, Append);
    LegalStep(s5, Append, [], s6);
    LegalStep(s4, CheckReply, [Append] + [], s6);
    LegalStep(s3, Reply(reply), [CheckReply] + ([Append] + []), s6);
    LegalConcat(s, Opening(), [Reply(reply)] + ([CheckReply] + ([Append] + [])));
  }

  /** A first round up to there. */
  function ToFirstAnswer(first: Message, reply: Message): seq<Label> {
    [Claim] + ([Write(first)] + ToAnswer(reply))
  }

  lemma FirstAnswerStored(s: State, first: Message, reply: Message)
    requires Init(s) && s.queue == [] && first.role == User && reply.role == Assistant
    ensures Legal(s, ToFirstAnswer(first, reply))
    ensures var t := After(s, ToFirstAnswer(first, reply));
            t.control == Appended(reply) && NothingWaits(t) && t.history == s.history + [first] + [reply]
  {
    var s1 := Apply(s, Claim);
    var s2 := Apply(s1, Write(first));
    AnswerStored(s2, reply);
    var last := After(s2, ToAnswer(reply));
    LegalStep(s1, Write(first), ToAnswer(reply), last);
    LegalStep(s, Claim, [Write(first)] + ToAnswer(reply), last);
  }

  /** From a fresh conversation: a failure right after the first answer was appended, before any tool
      ran, makes the next round send the broken group: nothing repairs the history between the two. */
  lemma FailureLeaks(s: State, first: Message, reply: Message, question: Message) returns (run: seq<Label>)
    requires Init(s) && s.queue == [] && first.role == User && question.role == User
    requires IsCalling(reply) && CallIds(reply) != {}
    ensures Legal(s, run)
    ensures After(s, run).control.Waiting? && !WellFormed(After(s, run).control.request)
  {
    FirstAnswerStored(s, first, reply);
    var t := After(s, ToFirstAnswer(first, reply));
    RetrySendsHistory(t, question);
    LegalConcat(s, ToFirstAnswer(first, reply), Retry(question));
    UnansweredStaysBroken(s.history + [first], reply, question);
    Merge.MergedWellFormed(t.history + [question]);
    run := ToFirstAnswer(first, reply) + Retry(question);
  }
}
