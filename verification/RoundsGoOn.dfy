/** That a round goes on until it is done: what it has put behind the history and not yet sent, read off
    the run, and what its history holds in the end. */
module RoundsGoOn {
  import opened Common
  import opened Messages
  import opened RoundRun
  import BrokenGroups
  import Merge
  import Validate

  /** The model's last reply, its calls whose results are still to come, what was put behind the history
      since a request was last sent and altogether, the preamble of that request, and whether the round
      has begun since. */
  datatype Ledger = Ledger(reply: Option<Message>, todo: seq<ToolCall>, unsent: History, said: History,
                           preamble: History, begun: bool)
  {
    function Says(more: History): Ledger {
      this.(unsent := unsent + more, said := said + more)
    }
  }

  const BLANK := Ledger(None, [], [], [], [], false)

  /** What a step adds to the ledger, `queue` being the messages that wait in front of it. */
  function Entered(g: Ledger, l: Label, queue: History): Ledger {
    match l
    case Write(question) => g.Says([question])
    case External(message) => g.Says([message])
    case Begin => g.(todo := [], begun := true)
    case MergeStart => g.Says(queue)
    case MergeNow => g.Says(queue)
    case Inject(note) => if note.Some? then g.Says([note.value]) else g
    case Send(preamble) => g.(unsent := [], preamble := preamble, begun := false)
    case Reply(reply) => g.(reply := Some(reply), todo := reply.calls)
    case Append => if g.reply.Some? then g.Says([g.reply.value]) else g
    case ToolDone(result) =>
      if g.todo == [] then g
      else g.(todo := g.todo[1..]).Says([Message(Tool, result, [], g.todo[0].id, "", false)])
    case _ => g
  }

  ghost function Story(s: State, run: seq<Label>, g: Ledger): Ledger
    requires Legal(s, run)
    decreases |run|
  {
    if run == [] then g else Story(Apply(s, run[0]), run[1..], Entered(g, run[0], s.queue))
  }

  /** The last reply is all that is unsent, and it called nothing. */
  predicate Answered(g: Ledger) {
    g.reply.Some? && g.unsent == [g.reply.value] && g.reply.value.calls == [] && g.todo == []
  }

  /** The reply is among what is unsent, and its calls are answered unless a stop was asked for. */
  predicate Answering(s: State, g: Ledger) {
    && g.reply.Some? && g.unsent != [] && g.unsent[0] == g.reply.value && (g.todo != [] ==> s.StopRequested())
  }

  /** There is something the model has not been asked about. */
  predicate Open(g: Ledger) {
    g.begun || (g.reply.Some? && g.reply.value.calls != []) || |g.unsent| > 1
  }

  /** Where the round stands according to the ledger. */
  ghost predicate Matches(s: State, g: Ledger) {
    match s.control
    case Starting => g.begun && g.todo == []
    case Injecting => g.begun && g.todo == []
    case Top => Open(g) && (g.todo != [] ==> s.StopRequested())
    case Checking(_) => Open(g) && g.todo == []
    case Waiting(request) => g.unsent == [] && g.todo == [] && request == g.preamble + Merge.Merged(s.history)
    case Received(reply) => g.reply == Some(reply) && g.unsent == [] && g.todo == reply.calls
    case Accepted(reply) => g.reply == Some(reply) && g.unsent == [] && g.todo == reply.calls
    case Appended(reply) => g.reply == Some(reply) && g.unsent == [reply] && g.todo == reply.calls
    case Calling(todo) =>
      g.reply.Some? && g.reply.value.calls != [] && g.unsent != [] && g.unsent[0] == g.reply.value && g.todo == todo
    case Armed(todo) =>
      g.reply.Some? && g.reply.value.calls != [] && g.unsent != [] && g.unsent[0] == g.reply.value && g.todo == todo
    case Running(todo) =>
      g.reply.Some? && g.reply.value.calls != [] && g.unsent != [] && g.unsent[0] == g.reply.value && g.todo == todo
    case AfterTools(called) => Answering(s, g) && if called then g.reply.value.calls != [] else Answered(g)
    case PostCheck(again, _) => Answering(s, g) && if again then Open(g) else Answered(g)
    case Validating => Answered(g)
    case Finished(outcome) => outcome == Done ==> Answered(g)
    case _ => true
  }

  lemma QuietStepMatches(s: State, l: Label, g: Ledger)
    requires Matches(s, g) && StopInv(s) && Enabled(s, l) && !ChangesHistory(l) && !l.Send?
    ensures Matches(Apply(s, l), Entered(g, l, s.queue))
  {
  }

  lemma SendMatches(s: State, preamble: History, g: Ledger)
    requires Matches(s, g) && Enabled(s, Send(preamble))
    ensures Matches(Apply(s, Send(preamble)), Entered(g, Send(preamble), s.queue))
  {
  }

  lemma LoudStepMatches(s: State, l: Label, g: Ledger)
    requires Matches(s, g) && StopInv(s) && Enabled(s, l) && ChangesHistory(l)
    ensures Matches(Apply(s, l), Entered(g, l, s.queue))
  {
  }

  lemma StepMatches(s: State, l: Label, g: Ledger)
    requires Matches(s, g) && StopInv(s) && Enabled(s, l)
    ensures Matches(Apply(s, l), Entered(g, l, s.queue))
  {
    if ChangesHistory(l) {
      LoudStepMatches(s, l, g);
    } else if l.Send? {
      SendMatches(s, l.preamble, g);
    } else {
      QuietStepMatches(s, l, g);
    }
  }

  lemma {:induction false} RunMatches(s: State, run: seq<Label>, g: Ledger)
    requires Matches(s, g) && StopInv(s) && Legal(s, run)
    ensures Matches(After(s, run), Story(s, run, g))
    decreases |run|
  {
    if run != [] {
      StepMatches(s, run[0], g);
      StepKeepsStop(s, run[0]);
      RunMatches(Apply(s, run[0]), run[1..], Entered(g, run[0], s.queue));
    }
  }

  /** Over every run a round that is done has been answered: its last reply called no tool and nothing was
      put behind the history since the request that drew it, so every tool result and every message handed
      over was there when the model was asked again. A request carries the whole history, its merged form,
      with every call of the replies before it answered; and no request is prepared without a reason. */
  lemma DoneIsAnswered(s: State, run: seq<Label>)
    requires Init(s) && Legal(s, run)
    ensures var t, g := After(s, run), Story(s, run, BLANK);
            && (t.control == Finished(Done) ==>
                  g.reply.Some? && g.reply.value.calls == [] && g.unsent == [g.reply.value] && g.todo == [])
            && (t.control.Waiting? ==>
                  g.unsent == [] && g.todo == [] && t.control.request == g.preamble + Merge.Merged(t.history))
            && (t.control.Checking? ==>
                  g.begun || (g.reply.Some? && g.reply.value.calls != []) || |g.unsent| > 1)
  {
    RunMatches(s, run, BLANK);
  }

  // ------------------------------------------------------------- what the history holds

  /** A step that rewrites the history: a check's edit, a note between the messages, a repair of a stopped
      round, a switch, or a failure that leaves a call unanswered for the repair. */
  predicate Rewrites(s: State, l: Label) {
    || l.EditContext? || (l.Inject? && l.note.Some?) || l.DropUnanswered? || l.Switch? || FailsOpen(s, l)
    || s.control.AbortValidating?
  }

  ghost predicate OnlyAppends(s: State, run: seq<Label>)
    requires Legal(s, run)
    decreases |run|
  {
    run == [] || (!Rewrites(s, run[0]) && OnlyAppends(Apply(s, run[0]), run[1..]))
  }

  ghost predicate Holds(s: State, g: Ledger, before: History) {
    Inv(s) && Matches(s, g) && s.history == before + g.said
  }

  lemma SaysWhatIsAppended(s: State, l: Label, g: Ledger)
    requires Matches(s, g) && Enabled(s, l) && BrokenGroups.Plain(l)
    ensures Entered(g, l, s.queue).said == g.said + BrokenGroups.Appends(s, l)
  {
  }

  lemma SaysNothing(s: State, l: Label, g: Ledger)
    requires Enabled(s, l) && !Rewrites(s, l) && !BrokenGroups.Plain(l) && !l.ValidateEnd?
    ensures Entered(g, l, s.queue).said == g.said && Apply(s, l).history == s.history
  {
  }

  lemma EndKeepsHistory(s: State)
    requires OwnedInv(s) && WholeGroups(s) && s.control.Validating?
    ensures Apply(s, ValidateEnd) == s.(control := Finished(Done))
  {
    assert TodoIds([]) == {};
    Validate.ValidatedWellFormed(s.history);
  }

  lemma StepHolds(s: State, l: Label, g: Ledger, before: History)
    requires Holds(s, g, before) && Enabled(s, l) && !Rewrites(s, l)
    ensures Apply(s, l).history == before + Entered(g, l, s.queue).said
  {
    if l.ValidateEnd? {
      EndKeepsHistory(s);
    } else if BrokenGroups.Plain(l) {
      BrokenGroups.HistoryAppended(s, l);
      SaysWhatIsAppended(s, l, g);
      Assoc(before, g.said, BrokenGroups.Appends(s, l));
    } else {
      SaysNothing(s, l, g);
    }
  }

  lemma {:induction false} RunHolds(s: State, run: seq<Label>, g: Ledger, before: History)
    requires Holds(s, g, before) && Legal(s, run) && OnlyAppends(s, run)
    ensures Holds(After(s, run), Story(s, run, g), before)
    decreases |run|
  {
    if run != [] {
      StepHolds(s, run[0], g, before);
      StepMatches(s, run[0], g);
      StepKeepsInv(s, run[0]);
      RunHolds(Apply(s, run[0]), run[1..], Entered(g, run[0], s.queue), before);
    }
  }

  /** Over every run without a rewriting step the history is what it was, followed by everything that was
      said, in the order it was said: questions, deliveries, replies, a result for each call and the merged
      messages. The check at the end of such a round changes nothing. */
  lemma HistoryIsTranscript(s: State, run: seq<Label>)
    requires Init(s) && Legal(s, run) && OnlyAppends(s, run)
    ensures After(s, run).history == s.history + Story(s, run, BLANK).said
  {
    assert TodoIds([]) == {};
    assert s.history + [] == s.history;
    RunHolds(s, run, BLANK, s.history);
  }

  /** A time note stands directly in front of the newest user message, or at the end when there is none. */
  lemma NoteStandsInFront(s: State, note: Message) returns (front: History, behind: History)
    requires Enabled(s, Inject(Some(note)))
    ensures s.history == front + behind && Apply(s, Inject(Some(note))).history == front + [note] + behind
    ensures behind == [] ==> forall m | m in front :: m.role != User
    ensures behind != [] ==> behind[0].role == User && forall m | m in behind[1..] :: m.role != User
  {
    var i := Merge.LastUser(s.history);
    var n := if i < 0 then |s.history| else i;
    front, behind := s.history[..n], s.history[n..];
    assert s.history[..|s.history|] == s.history;
    assert s.history + [note] + [] == s.history + [note];
  }

  // --------------------------------------------------------------- how a round is ended

  lemma Assoc(a: History, b: History, c: History)
    ensures a + b + c == a + (b + c)
  {
  }

  lemma RepairPastGroup(head: Message, run: History, left: History, rest: History, known: set<string>,
                        repaired: History)
    requires IsCalling(head) && AllTools(run) && CallIds(head) <= Answers(run) && !StartsRun(left + rest)
    requires Validate.Repair(left + rest, known + CallIds(head)) == left + repaired
    ensures Validate.Repair(([head] + run + left) + rest, known) == ([head] + run + left) + repaired
  {
    var group := [head] + run;
    Assoc(group, left, rest);
    Assoc(group, left, repaired);
    var all := left + rest;
    assert Validate.Repair(group + all, known) == group + Validate.Repair(all, known + CallIds(head)) by {
      Validate.RepairOfGroup(head, run, all, known);
    }
  }

  lemma RepairPastOne(m: Message, left: History, rest: History, known: set<string>, repaired: History)
    requires !IsCalling(m) && m.role != Tool && Validate.Repair(left + rest, known) == left + repaired
    ensures Validate.Repair(([m] + left) + rest, known) == ([m] + left) + repaired
  {
    assert (([m] + left) + rest)[1..] == left + rest;
    assert ([m] + left) + repaired == [m] + (left + repaired);
  }

  lemma FirstGroup(front: History) returns (run: History, left: History)
    requires front != [] && IsCalling(front[0]) && WellFormed(front)
    ensures front == [front[0]] + run + left && |left| < |front|
    ensures AllTools(run) && CallIds(front[0]) <= Answers(run) && !StartsRun(left) && WellFormed(left)
  {
    Validate.GroupSplit(front);
    run := LeadingTools(front[1..]);
    left := front[1 + |run|..];
    WellFormedCut(front[..1 + |run|], left);
  }

  /** Nothing happens to groups that are whole when what follows them is repaired. */
  lemma {:induction false} RepairBehind(front: History, rest: History, known: set<string>) returns (more: set<string>)
    requires WellFormed(front) && !StartsRun(rest)
    ensures Validate.Repair(front + rest, known) == front + Validate.Repair(rest, more)
    decreases |front|
  {
    if front == [] {
      more := known;
      assert [] + rest == rest && [] + Validate.Repair(rest, known) == Validate.Repair(rest, known);
    } else if IsCalling(front[0]) {
      var run, left := FirstGroup(front);
      more := RepairBehind(left, rest, known + CallIds(front[0]));
      assert !StartsRun(left + rest) by { assert left == [] ==> left + rest == rest; }
      RepairPastGroup(front[0], run, left, rest, known, Validate.Repair(rest, more));
    } else {
      FrontIsWhole(front);
      OwnedHasNoOrphanStart(front);
      more := RepairBehind(front[1..], rest, known);
      assert front == [front[0]] + front[1..];
      RepairPastOne(front[0], front[1..], rest, known, Validate.Repair(rest, more));
    }
  }

  lemma FrontIsWhole(front: History)
    requires front != [] && !IsCalling(front[0]) && WellFormed(front)
    ensures WellFormed(front[1..])
  {
    OwnedHasNoOrphanStart(front);
    assert OwnerAfter({}, front[0]) == {};
  }

  lemma {:induction false} RepairOfNotes(notes: History, known: set<string>)
    requires CallFree(notes)
    ensures Validate.Repair(notes, known) == notes
  {
    if notes != [] {
      RepairOfNotes(notes[1..], known);
    }
  }

  /** A group with a result missing goes as a whole. */
  lemma RepairDropsGroup(head: Message, results: History, notes: History, known: set<string>)
    requires IsCalling(head) && AllTools(results) && !(CallIds(head) <= Answers(results)) && CallFree(notes)
    ensures Validate.Repair([head] + results + notes, known) == notes
  {
    var ms := [head] + results + notes;
    assert ms[1..] == results + notes;
    LeadingToolsConcat(results, notes);
    assert LeadingTools(notes) == [];
    assert results + [] == results;
    assert ms[1 + |results|..] == notes;
    RepairOfNotes(notes, known);
  }

  lemma AbortDropsGroup(front: History, head: Message, results: History, notes: History)
    requires WellFormed(front) && IsCalling(head) && AllTools(results) && CallFree(notes)
    requires !(CallIds(head) <= Answers(results)) && (results != [] || notes != [])
    ensures Validate.Validated(front + ([head] + results + notes)) == front + notes
  {
    var more := RepairBehind(front, [head] + results + notes, {});
    RepairDropsGroup(head, results, notes, more);
  }

  lemma AbortDropsHead(front: History, head: Message)
    requires WellFormed(front) && IsCalling(head)
    ensures Validate.Validated(WithoutUnanswered(front + [head])) == front
  {
    assert WithoutUnanswered(front + [head]) == front;
    Validate.ValidatedWellFormed(front);
  }

  lemma AbortDropsOpenGroup(front: History, head: Message, results: History, notes: History)
    requires WellFormed(front) && IsCalling(head) && AllTools(results) && CallFree(notes)
    requires !(CallIds(head) <= Answers(results))
    ensures Validate.Validated(WithoutUnanswered(front + ([head] + results + notes))) == front + notes
  {
    if results == [] && notes == [] {
      assert [head] + results + notes == [head] && front + notes == front;
      AbortDropsHead(front, head);
    } else {
      GroupIsNotDropped(front, head, results, notes);
      AbortDropsGroup(front, head, results, notes);
    }
  }

  /** A stopped round loses the group it was interrupted in and nothing else: neither the groups in front of
      it nor the messages merged behind it. */
  lemma StopDropsOpenGroup(s: State, front: History, head: Message, results: History, notes: History)
    requires Enabled(s, DropUnanswered) && s.history == front + ([head] + results + notes)
    requires WellFormed(front) && IsCalling(head) && AllTools(results) && CallFree(notes)
    requires !(CallIds(head) <= Answers(results))
    ensures Apply(Apply(s, DropUnanswered), ValidateEnd).history == front + notes
  {
    AbortDropsOpenGroup(front, head, results, notes);
  }

  lemma GroupIsNotDropped(front: History, head: Message, results: History, notes: History)
    requires AllTools(results) && CallFree(notes) && (results != [] || notes != [])
    ensures WithoutUnanswered(front + ([head] + results + notes)) == front + ([head] + results + notes)
  {
    var ms := front + ([head] + results + notes);
    if notes != [] {
      assert ms[|ms| - 1] == notes[|notes| - 1] && notes[|notes| - 1] in notes;
    } else {
      assert ms[|ms| - 1] == results[|results| - 1] && results[|results| - 1] in results;
    }
  }

  /** A round that is stopped between its groups loses nothing. */
  lemma StopKeepsWholeGroups(s: State)
    requires Enabled(s, DropUnanswered) && WellFormed(s.history)
    requires s.history != [] ==> !IsCalling(s.history[|s.history| - 1])
    ensures Apply(Apply(s, DropUnanswered), ValidateEnd).history == s.history
  {
    Validate.ValidatedWellFormed(s.history);
  }

  /** And over every run: unless a round died with a call unanswered since the last repair, the check at
      the end of a round that is done finds nothing to repair. */
  lemma DoneKeepsHistory(s: State, run: seq<Label>)
    requires Init(s) && Legal(s, run) && !Damaged(s, run, false) && After(s, run).control.Validating?
    ensures Apply(After(s, run), ValidateEnd) == After(s, run).(control := Finished(Done))
  {
    InitKnown(s);
    RunKeepsKnown(s, run, false);
    EndKeepsHistory(After(s, run));
  }

  /** What a model switch sets aside to be summarized is the whole history, and a second switch before
      anything new was said does not lose it. */
  lemma SwitchSetsHistoryAside(s: State)
    requires Enabled(s, Switch) && s.history != []
    ensures Legal(s, [Switch, Switch])
    ensures var t := After(s, [Switch, Switch]);
            t.handOff == Some(s.history) && t.history == [] && t.control == s.control
  {
    assert [Switch, Switch][1..] == [Switch] && [Switch][1..] == [];
  }
}
