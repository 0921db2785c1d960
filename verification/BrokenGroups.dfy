/** What a round that died with a call unanswered leaves behind, and for how long. */
module BrokenGroups {
  import opened Common
  import opened Messages
  import opened Window
  import opened RoundRun
  import Rounds
  import Merge

  // ------------------------------------------------------------------ a broken group

  /** A history around one of its groups: the calling message, the results behind it, and the rest. */
  datatype Parts = Parts(front: History, head: Message, run: History, behind: History) {
    function All(): History {
      front + ([head] + run) + behind
    }

    /** How far from the end of the history the group begins. */
    function Size(): nat {
      1 + |run| + |behind|
    }

    /** Not all results are there, and they can no longer come. */
    predicate Broken() {
      IsCalling(head) && AllTools(run) && !(CallIds(head) <= Answers(run)) && !StartsRun(behind)
    }
  }

  lemma BrokenGroup(head: Message, run: History, behind: History)
    requires Parts([], head, run, behind).Broken()
    ensures !Grouped([head] + run + behind)
  {
    var g := [head] + run + behind;
    assert g[1..] == run + behind;
    LeadingToolsConcat(run, behind);
    assert LeadingTools(behind) == [] && run + [] == run;
  }

  lemma BrokenIsNotGrouped(d: Parts)
    requires d.Broken()
    ensures !Grouped(d.All())
  {
    var g := [d.head] + d.run + d.behind;
    assert d.All() == d.front + g;
    BrokenGroup(d.head, d.run, d.behind);
    if Grouped(d.All()) {
      GroupedSuffix(d.front, g, {});
    }
  }

  lemma RequestIsBroken(preamble: History, d: Parts)
    requires d.Broken()
    ensures !Grouped(preamble + Merge.Merged(d.All()))
  {
    BrokenIsNotGrouped(d);
    Merge.MergedByRuns(d.All());
    Merge.ByRunsGroups(d.All(), {});
    if Grouped(preamble + Merge.Merged(d.All())) {
      GroupedSuffix(preamble, Merge.Merged(d.All()), {});
    }
  }

  /** The results behind the broken group belong to calls behind it. */
  lemma RestIsOwned(d: Parts)
    requires Owned(d.All()) && d.Broken()
    ensures Owned(d.behind)
    ensures d.behind != [] ==> OwnerAfterAll({}, d.behind) == OwnerAfterAll({}, d.All())
  {
    var front := d.front + ([d.head] + d.run);
    OwnedCut(front, d.behind);
    OwnedConcat(front, d.behind, {});
    OwnedFresh(d.behind, {}, OwnerAfterAll({}, front));
  }

  lemma NewestParts(front: History, run: History, id: string) returns (d: Parts)
    requires AllTools(run) && (front == [] || front[|front| - 1].role != Tool)
    requires id != "" && id in OwnerAfterAll({}, front + run) && id !in Answers(run)
    ensures d.Broken() && d.All() == front + run && d.behind == [] && d.run == run
  {
    OfferedByHead(front, run, id);
    d := Parts(front[..|front| - 1], front[|front| - 1], run, []);
    assert id in CallIds(d.head);
    assert front == d.front + [d.head];
    assert d.All() == front + run;
  }

  /** A failure with a call unanswered leaves the newest group broken, with nothing behind it. */
  lemma NewestIsBroken(ms: History, id: string) returns (d: Parts)
    requires id != "" && id in OwnerAfterAll({}, ms) && id !in Answers(TrailingTools(ms))
    ensures d.Broken() && d.All() == ms && d.behind == [] && d.run == TrailingTools(ms)
  {
    var run := TrailingTools(ms);
    var front := ms[..|ms| - |run|];
    assert ms == front + run;
    d := NewestParts(front, run, id);
  }

  // ------------------------------------------------------------ following it over a run

  /** How much of the history a compression keeps as it is. */
  function Kept(ms: History): nat {
    if Compressible(ms) then |Rounds.Flatten(NewestRounds(ms))| else |ms|
  }

  /** Whether a time note lands within the last k messages, or behind them. */
  predicate NoteFollows(ms: History, k: nat) {
    !(0 <= Merge.LastUser(ms) < |ms| - k)
  }

  function AfterEdit(ms: History, e: Edit, k: nat): Option<nat> {
    match e
    case Compress(_, _) => if k <= Kept(ms) then Some(k) else None
    case DropOldest => if k <= |Rounds.DropRounds(ms, 1)| then Some(k) else None
    case _ => Some(k)
  }

  predicate Repairs(l: Label) {
    l.ValidateEnd? || l.Switch? || l.DropUnanswered?
  }

  /** The messages a step appends. */
  function Appends(s: State, l: Label): History
    requires Enabled(s, l)
  {
    match l
    case Write(question) => [question]
    case External(message) => [message]
    case MergeStart => s.queue
    case MergeNow => s.queue
    case Append => [s.control.reply]
    case ToolDone(result) => [ToolResult(s.control.todo[0], result)]
    case _ => []
  }

  /** Where the group of the last open failure begins, counted from the end of the history, until it is
      repaired, switched away, dropped or compressed. */
  function NextMark(s: State, l: Label, mark: Option<nat>): Option<nat>
    requires Enabled(s, l)
  {
    if FailsOpen(s, l) then Some(|TrailingTools(s.history)| + 1)
    else if mark.None? || Repairs(l) then None
    else if l.Inject? then
      Some(if l.note.Some? && NoteFollows(s.history, mark.value) then mark.value + 1 else mark.value)
    else if l.EditContext? then AfterEdit(s.history, l.edit, mark.value)
    else Some(mark.value + |Appends(s, l)|)
  }

  ghost function Mark(s: State, run: seq<Label>, mark: Option<nat>): Option<nat>
    requires Legal(s, run)
    decreases |run|
  {
    if run == [] then mark else Mark(Apply(s, run[0]), run[1..], NextMark(s, run[0], mark))
  }

  // ------------------------------------------------------------------- the invariant

  /** Between an answer and the last of its results. */
  predicate Answering(c: Control) {
    c.Appended? || c.Calling? || c.Armed? || c.Running?
  }

  /** The machine without the request that is out. */
  function Blind(s: State): State {
    s.(control := if s.control.Waiting? then Waiting([]) else s.control)
  }

  /** The machine as it would stand if the history began behind the broken group. */
  function Rest(s: State, d: Parts): State {
    Blind(s).(history := d.behind)
  }

  /** These groups are whole, or open with exactly the outstanding calls, or a seen stop will repair them. */
  ghost predicate Whole(s: State, ms: History) {
    || MayBeBroken(s.control)
    || (MayBeBrokenByStop(s.control) && s.StopRequested())
    || GroupedBut(ms, TodoIds(Outstanding(s.control)))
  }

  /** One group is broken, and everything behind it is as it should. */
  ghost predicate BrokenAt(s: State, d: Parts) {
    && s.history == d.All() && d.Broken()
    && Whole(s, d.behind)
    && (Answering(s.control) ==> d.behind != [])
    && (s.control.Waiting? ==> !Grouped(s.control.request))
  }

  /** The marked group is there and broken, or all groups are whole. */
  ghost predicate Follows(t: State, mark: Option<nat>) {
    if mark.None? then WholeGroups(t) else exists d :: BrokenAt(t, d) && d.Size() == mark.value
  }

  ghost predicate Followed(s: State, mark: Option<nat>) {
    OwnedInv(s) && StopInv(s) && Follows(s, mark)
  }

  lemma UnansweredId(s: State) returns (id: string)
    requires OwnedInv(s) && Unanswered(s)
    ensures id != "" && id in OwnerAfterAll({}, s.history) && id !in Answers(TrailingTools(s.history))
  {
    var c :| c in Outstanding(s.control) && c.id != "" && c.id !in Answers(TrailingTools(s.history));
    id := c.id;
  }

  lemma FailureBreaks(s: State) returns (d: Parts)
    requires OwnedInv(s) && Enabled(s, Fail) && Unanswered(s)
    ensures BrokenAt(Apply(s, Fail), d) && d.Size() == |TrailingTools(s.history)| + 1
  {
    var id := UnansweredId(s);
    d := NewestIsBroken(s.history, id);
  }

  lemma RestKeepsInv(s: State, d: Parts)
    requires OwnedInv(s) && StopInv(s) && BrokenAt(s, d)
    ensures Inv(Rest(s, d))
  {
    RestIsOwned(d);
    BrokenIsNotGrouped(d);
  }

  // ----------------------------------------------------------- steps that only append

  predicate Plain(l: Label) {
    !Repairs(l) && !l.Inject? && !l.EditContext? && !l.AskSummary? && !l.Send?
  }

  lemma HistoryAppended(s: State, l: Label)
    requires Enabled(s, l) && Plain(l)
    ensures Apply(s, l).history == s.history + Appends(s, l)
  {
  }

  /** What is appended are results only where an answer waits for them. */
  lemma AppendsFit(s: State, l: Label)
    requires OwnedInv(s) && Enabled(s, l)
    ensures StartsRun(Appends(s, l)) ==> Answering(s.control)
  {
    assert forall m | m in s.queue :: IsNote(m);
    if s.queue != [] {
      assert s.queue[0] in s.queue;
    }
  }

  lemma PlainControls(s: State, l: Label)
    requires Enabled(s, l) && Plain(l)
    ensures Answering(Apply(s, l).control) ==> Answering(s.control) || Appends(s, l) != []
    ensures Apply(s, l).control.Waiting? ==> Apply(s, l).control == s.control
  {
  }

  /** All that such a step does to the history and the thread's place. */
  predicate Appended(s: State, t: State, z: History) {
    && t.history == s.history + z && (StartsRun(z) ==> Answering(s.control))
    && (Answering(t.control) ==> Answering(s.control) || z != [])
    && (t.control.Waiting? ==> t.control == s.control)
  }

  lemma PlainAppends(s: State, l: Label)
    requires OwnedInv(s) && Enabled(s, l) && Plain(l)
    ensures Appended(s, Apply(s, l), Appends(s, l))
  {
    HistoryAppended(s, l);
    AppendsFit(s, l);
    PlainControls(s, l);
  }

  /** What stands in the history does not matter to these steps. */
  lemma HistoryFrames(s: State, l: Label, ms: History)
    requires Enabled(s, l) && Plain(l)
    ensures Enabled(s.(history := ms), l)
    ensures Apply(s.(history := ms), l) == Apply(s, l).(history := ms + Appends(s, l))
  {
    assert ms + [] == ms;
  }

  /** Nor does the request that is out. */
  lemma RequestFrames(s: State, l: Label)
    requires Enabled(s, l) && Plain(l)
    ensures Enabled(Blind(s), l) && Apply(Blind(s), l) == Blind(Apply(s, l)) && Appends(Blind(s), l) == Appends(s, l)
  {
  }

  lemma RestSteps(s: State, l: Label, y: History)
    requires Enabled(s, l) && Plain(l)
    ensures var u := Blind(s).(history := y);
            Enabled(u, l) && Apply(u, l) == Blind(Apply(s, l)).(history := y + Appends(s, l))
  {
    RequestFrames(s, l);
    HistoryFrames(Blind(s), l, y);
  }

  lemma {:induction false} TrailingConcat(a: History, y: History)
    requires y != [] && y[0].role != Tool
    ensures TrailingTools(a + y) == TrailingTools(y)
    decreases |y|
  {
    var init := y[..|y| - 1];
    assert (a + y)[..|a + y| - 1] == a + init && (a + y)[|a + y| - 1] == y[|y| - 1];
    if y[|y| - 1].role == Tool {
      TrailingConcat(a, init);
    }
  }

  /** A failure is as open as it looks from behind the broken group. */
  lemma FailsAlike(s: State, d: Parts)
    requires BrokenAt(s, d) && Unanswered(Rest(s, d))
    ensures Unanswered(s)
  {
    TrailingConcat(d.front + ([d.head] + d.run), d.behind);
  }

  lemma FailsNoMore(s: State, l: Label, d: Parts)
    requires BrokenAt(s, d) && !FailsOpen(s, l)
    ensures !FailsOpen(Rest(s, d), l)
  {
    if Unanswered(Rest(s, d)) {
      FailsAlike(s, d);
    }
  }

  lemma WholeAgain(t: State, ms: History)
    requires WholeGroups(Blind(t).(history := ms))
    ensures Whole(t, ms)
  {
  }

  lemma RestStaysWhole(u: State, l: Label, t: State, ms: History)
    requires Inv(u) && Enabled(u, l) && !FailsOpen(u, l) && Apply(u, l) == Blind(t).(history := ms)
    ensures Whole(t, ms)
  {
    StepKeepsWhole(u, l);
    WholeAgain(t, ms);
  }

  /** Behind the broken group the step keeps what it always keeps. */
  lemma PlainKeepsRest(s: State, l: Label, d: Parts)
    requires OwnedInv(s) && StopInv(s) && BrokenAt(s, d) && Enabled(s, l) && Plain(l) && !FailsOpen(s, l)
    ensures Whole(Apply(s, l), d.behind + Appends(s, l))
  {
    FailsNoMore(s, l, d);
    RestKeepsInv(s, d);
    RestSteps(s, l, d.behind);
    RestStaysWhole(Rest(s, d), l, Apply(s, l), d.behind + Appends(s, l));
  }

  lemma PlainFollows(s: State, t: State, d: Parts, z: History)
    requires BrokenAt(s, d) && Appended(s, t, z) && Whole(t, d.behind + z)
    ensures BrokenAt(t, d.(behind := d.behind + z))
  {
    var front := d.front + ([d.head] + d.run);
    assert front + d.behind + z == front + (d.behind + z);
  }

  lemma PlainKeepsBroken(s: State, l: Label, d: Parts)
    requires OwnedInv(s) && StopInv(s) && BrokenAt(s, d) && Enabled(s, l) && Plain(l) && !FailsOpen(s, l)
    ensures BrokenAt(Apply(s, l), d.(behind := d.behind + Appends(s, l)))
  {
    PlainAppends(s, l);
    PlainKeepsRest(s, l, d);
    PlainFollows(s, Apply(s, l), d, Appends(s, l));
  }

  // ------------------------------------------------------- the note in front of a question

  lemma LastUserBehind(x: History, y: History)
    ensures Merge.LastUser(x + y) ==
            if Merge.LastUser(y) >= 0 then |x| + Merge.LastUser(y) else Merge.LastUser(x)
  {
    assert forall n | 0 <= n < |x| :: (x + y)[n] == x[n];
    assert forall n | 0 <= n < |y| :: (x + y)[|x| + n] == y[n];
  }

  lemma NotedBehind(x: History, y: History, note: Message)
    requires Merge.LastUser(x + y) < 0 || Merge.LastUser(y) >= 0
    ensures Merge.Noted(x + y, note) == x + Merge.Noted(y, note)
  {
    LastUserBehind(x, y);
    var k := Merge.LastUser(y);
    if k >= 0 {
      SplitBehind(x, y, k);
      assert x + y[..k] + [note] + y[k..] == x + (y[..k] + [note] + y[k..]);
    } else {
      assert x + y + [note] == x + (y + [note]);
    }
  }

  lemma SplitBehind(x: History, y: History, k: nat)
    requires k <= |y|
    ensures (x + y)[..|x| + k] == x + y[..k] && (x + y)[|x| + k..] == y[k..]
  {
  }

  lemma NotedInFront(x: History, y: History, note: Message)
    requires 0 <= Merge.LastUser(x + y) < |x|
    ensures var i := Merge.LastUser(x + y);
            Merge.Noted(x + y, note) == (x[..i] + [note] + x[i..]) + y
  {
    var i := Merge.LastUser(x + y);
    assert (x + y)[..i] == x[..i] && (x + y)[i..] == x[i..] + y;
  }

  /** A note goes in front of the broken group or behind its results, never into it. */
  lemma NotedParts(d: Parts, note: Message) returns (r: Parts)
    requires d.Broken() && note.role == User && Owned(d.All())
    ensures r.All() == Merge.Noted(d.All(), note) && r.Broken()
    ensures r.Size() == if NoteFollows(d.All(), d.Size()) then d.Size() + 1 else d.Size()
    ensures r.behind == d.behind || r.behind == Merge.Noted(d.behind, note)
  {
    var x := d.front + ([d.head] + d.run);
    if NoteFollows(d.All(), d.Size()) {
      LastUserBehind(x, d.behind);
      NoUserIn(d);
      NotedBehind(x, d.behind, note);
      r := d.(behind := Merge.Noted(d.behind, note));
    } else {
      var rest := ([d.head] + d.run) + d.behind;
      var i := Merge.LastUser(d.All());
      assert d.All() == d.front + rest;
      NotedInFront(d.front, rest, note);
      r := d.(front := d.front[..i] + [note] + d.front[i..]);
      assert r.All() == r.front + rest;
    }
  }

  lemma NoUserIn(d: Parts)
    requires d.Broken()
    ensures Merge.LastUser(d.front + ([d.head] + d.run)) < |d.front|
  {
    var x := d.front + ([d.head] + d.run);
    assert x[|d.front|] == d.head;
    forall i | |d.front| < i < |x|
      ensures x[i].role == Tool
    {
      assert x[i] == d.run[i - |d.front| - 1];
    }
  }

  lemma InjectKeepsBroken(s: State, note: Option<Message>, d: Parts) returns (r: Parts)
    requires OwnedInv(s) && BrokenAt(s, d) && Enabled(s, Inject(note))
    ensures BrokenAt(Apply(s, Inject(note)), r)
    ensures r.Size() == if note.Some? && NoteFollows(s.history, d.Size()) then d.Size() + 1 else d.Size()
  {
    assert TodoIds([]) == {};
    r := d;
    if note.Some? {
      r := NotedParts(d, note.value);
      RestIsOwned(d);
      Merge.NotedWellFormed(d.behind, note.value);
    }
  }

  // ----------------------------------------------------------- the edits of a check

  /** What is cut away in front, and what is put there, does not touch a group that stays. */
  lemma SuffixParts(d: Parts, dropped: History, kept: History, note: History) returns (r: Parts)
    requires d.Broken() && d.All() == dropped + kept && d.Size() <= |kept|
    ensures r.Broken() && r.All() == note + kept && r.Size() == d.Size() && r.behind == d.behind
  {
    var rest := ([d.head] + d.run) + d.behind;
    assert d.All() == d.front + rest;
    r := d.(front := note + d.front[|dropped|..]);
    assert kept == (d.front + rest)[|dropped|..] == d.front[|dropped|..] + rest;
    assert r.All() == r.front + rest;
  }

  lemma InsideRun(run: History, behind: History, j: nat)
    requires AllTools(run) && j <= |run + behind|
    ensures j < |run| ==> StartsRun((run + behind)[j..])
  {
    if j < |run| {
      assert (run + behind)[j..][0] == run[j];
    }
  }

  /** A cut behind the group's first message that does not fall on a result leaves none of the group. */
  lemma SuffixBehind(d: Parts, dropped: History, kept: History)
    requires d.Broken() && d.All() == dropped + kept && |kept| < d.Size() && !StartsRun(kept)
    ensures exists gone :: d.behind == gone + kept
  {
    var rest := d.run + d.behind;
    var j := |rest| - |kept|;
    assert d.All() == (d.front + [d.head]) + rest;
    assert kept == d.All()[|dropped|..] == rest[j..];
    InsideRun(d.run, d.behind, j);
    assert rest[j..] == d.behind[j - |d.run|..];
    assert d.behind == d.behind[..j - |d.run|] + kept;
  }

  lemma LostWithFront(d: Parts, dropped: History, kept: History, note: History)
    requires d.Broken() && d.All() == dropped + kept && |kept| < d.Size() && !StartsRun(kept)
    requires Grouped(d.behind) && Grouped(note)
    ensures Grouped(note + kept)
  {
    SuffixBehind(d, dropped, kept);
    var gone :| d.behind == gone + kept;
    GroupedSuffix(gone, kept, {});
    GroupedConcat(note, kept, {});
  }

  /** A round boundary is no place inside a group. */
  lemma TurnStartsNoRun(kept: History)
    requires Rounds.TurnHead(kept)
    ensures !StartsRun(kept)
  {
  }

  lemma DropKeeps(ms: History) returns (dropped: History)
    ensures var kept := Rounds.DropRounds(ms, 1);
            ms == dropped + kept && (dropped == [] || !StartsRun(kept))
  {
    dropped := [];
    var rounds := Rounds.Split(ms).rounds;
    if |rounds| > 1 {
      Rounds.TailStartsTurn(ms, 1);
      TurnStartsNoRun(Rounds.Flatten(rounds[1..]));
      dropped := Rounds.Flatten(rounds[..1]);
    } else {
      assert [] + ms == ms;
    }
  }

  lemma CompressionKeeps(ms: History, note: History) returns (dropped: History)
    requires Compressible(ms)
    ensures var kept := Rounds.Flatten(NewestRounds(ms));
            ms == dropped + kept && !StartsRun(kept) && Compressed(ms, note) == note + kept
  {
    CompressedShape(ms, note);
    Rounds.TailStartsTurn(ms, Rounds.RoundCount(ms) - Rounds.KEEP_ROUNDS);
    TurnStartsNoRun(Rounds.Flatten(NewestRounds(ms)));
    dropped := Oldest(ms, Rounds.RoundCount(ms) - Rounds.KEEP_ROUNDS);
  }

  lemma TruncatedParts(d: Parts, cap: nat, cutNote: Note) returns (r: Parts)
    requires d.Broken()
    ensures r.Broken() && r.All() == Truncated(d.All(), cap, cutNote) && r.Size() == d.Size()
    ensures r.behind == Truncated(d.behind, cap, cutNote)
  {
    r := Parts(Truncated(d.front, cap, cutNote), d.head, Truncated(d.run, cap, cutNote),
               Truncated(d.behind, cap, cutNote));
    assert r.All() == Truncated(d.All(), cap, cutNote);
    TruncatedSkeleton(d.run, cap, cutNote);
    AnswersSkeleton(r.run, d.run);
    RunSkeleton(d.run, r.run);
  }

  lemma RunSkeleton(a: History, b: History)
    requires SameSkeleton(a, b) && AllTools(a)
    ensures AllTools(b)
  {
    forall m | m in b ensures m.role == Tool {
      var i :| 0 <= i < |b| && b[i] == m;
      assert a[i] in a;
    }
  }

  lemma CheckBreaksNothing(s: State, t: State, d: Parts, r: Parts)
    requires BrokenAt(s, d) && InCheck(s.control) && r.Broken() && t.history == r.All()
    requires t == s.(history := t.history).At(Free)
    requires r.behind == d.behind || SameSkeleton(d.behind, r.behind)
    ensures BrokenAt(t, r)
  {
    if r.behind != d.behind {
      SkeletonDecides(d.behind, r.behind, TodoIds([]), {});
    }
  }

  lemma CheckLosesGroup(s: State, t: State, d: Parts, dropped: History, kept: History, note: History)
    requires BrokenAt(s, d) && InCheck(s.control) && t == s.(history := note + kept).At(Free)
    requires d.All() == dropped + kept && |kept| < d.Size() && !StartsRun(kept)
    requires forall m | m in note :: m.role == System
    ensures WholeGroups(t)
  {
    assert TodoIds([]) == {};
    if Grouped(d.behind) {
      CallFreeWellFormed(note);
      LostWithFront(d, dropped, kept, note);
    }
  }

  lemma CutKeepsBroken(s: State, dropped: History, kept: History, note: History, d: Parts)
    requires BrokenAt(s, d) && InCheck(s.control) && s.history == dropped + kept
    requires (dropped == [] || !StartsRun(kept)) && forall m | m in note :: m.role == System
    ensures var t := s.(history := note + kept).At(Free);
            Follows(t, if d.Size() <= |kept| then Some(d.Size()) else None)
  {
    var t := s.(history := note + kept).At(Free);
    if d.Size() <= |kept| {
      var r := SuffixParts(d, dropped, kept, note);
      CheckBreaksNothing(s, t, d, r);
    } else {
      CheckLosesGroup(s, t, d, dropped, kept, note);
    }
  }

  lemma EditFollows(s: State, e: Edit, d: Parts)
    requires BrokenAt(s, d) && Enabled(s, EditContext(e))
    ensures Follows(Apply(s, EditContext(e)), AfterEdit(s.history, e, d.Size()))
  {
    match e
    case HandOff(prefix, summary) => HandOffFollows(s, SummaryNote(prefix, summary), d);
    case Compress(prefix, summary) => CompressFollows(s, SummaryNote(prefix, summary), d);
    case CutTexts(cap, note) => CutTextsFollows(s, cap, note, d);
    case DropOldest => DropFollows(s, d);
  }

  lemma HandOffFollows(s: State, note: History, d: Parts)
    requires BrokenAt(s, d) && InCheck(s.control) && forall m | m in note :: m.role == System
    ensures Follows(s.(history := note + s.history).At(Free), Some(d.Size()))
  {
    assert s.history == [] + s.history;
    CutKeepsBroken(s, [], s.history, note, d);
  }

  lemma CompressFollows(s: State, note: History, d: Parts)
    requires BrokenAt(s, d) && InCheck(s.control) && forall m | m in note :: m.role == System
    ensures Follows(s.(history := Compressed(s.history, note)).At(Free),
                    if d.Size() <= Kept(s.history) then Some(d.Size()) else None)
  {
    if Compressible(s.history) {
      var dropped := CompressionKeeps(s.history, note);
      CutKeepsBroken(s, dropped, Rounds.Flatten(NewestRounds(s.history)), note, d);
    } else {
      assert [] + s.history == s.history;
      HandOffFollows(s, [], d);
    }
  }

  lemma DropFollows(s: State, d: Parts)
    requires BrokenAt(s, d) && InCheck(s.control)
    ensures var kept := Rounds.DropRounds(s.history, 1);
            Follows(s.(history := kept).At(Free), if d.Size() <= |kept| then Some(d.Size()) else None)
  {
    var kept := Rounds.DropRounds(s.history, 1);
    var dropped := DropKeeps(s.history);
    assert [] + kept == kept;
    CutKeepsBroken(s, dropped, kept, [], d);
  }

  lemma CutTextsFollows(s: State, cap: nat, cutNote: Note, d: Parts)
    requires BrokenAt(s, d) && InCheck(s.control)
    ensures Follows(s.(history := Truncated(s.history, cap, cutNote)).At(Free), Some(d.Size()))
  {
    var r := TruncatedParts(d, cap, cutNote);
    TruncatedSkeleton(d.behind, cap, cutNote);
    CheckBreaksNothing(s, s.(history := Truncated(s.history, cap, cutNote)).At(Free), d, r);
  }

  lemma AskFollows(s: State, d: Parts)
    requires BrokenAt(s, d) && Enabled(s, AskSummary)
    ensures BrokenAt(Apply(s, AskSummary), d)
  {
  }

  lemma SendFollows(s: State, preamble: History, d: Parts)
    requires BrokenAt(s, d) && Enabled(s, Send(preamble))
    ensures BrokenAt(Apply(s, Send(preamble)), d)
  {
    assert TodoIds([]) == {};
    RequestIsBroken(preamble, d);
  }

  // ------------------------------------------------------------------- every step

  lemma RepairFollows(s: State, l: Label)
    requires OwnedInv(s) && Enabled(s, l) && Repairs(l)
    ensures WholeGroups(Apply(s, l))
  {
    assert TodoIds([]) == {};
    if l.ValidateEnd? {
      RepairMakesWhole(s);
    }
  }

  lemma BrokenFollows(s: State, l: Label, d: Parts)
    requires OwnedInv(s) && StopInv(s) && BrokenAt(s, d) && Enabled(s, l) && !FailsOpen(s, l) && !Repairs(l)
    ensures Follows(Apply(s, l), NextMark(s, l, Some(d.Size())))
  {
    if l.Inject? {
      var r := InjectKeepsBroken(s, l.note, d);
    } else if l.EditContext? {
      EditFollows(s, l.edit, d);
    } else if l.AskSummary? {
      AskFollows(s, d);
    } else if l.Send? {
      SendFollows(s, l.preamble, d);
    } else {
      PlainKeepsBroken(s, l, d);
    }
  }

  lemma StepFollows(s: State, l: Label, mark: Option<nat>)
    requires Followed(s, mark) && Enabled(s, l)
    ensures Followed(Apply(s, l), NextMark(s, l, mark))
  {
    StepKeepsOwned(s, l);
    StepKeepsStop(s, l);
    if FailsOpen(s, l) {
      var d := FailureBreaks(s);
    } else if mark.None? {
      StepKeepsWhole(s, l);
    } else if Repairs(l) {
      RepairFollows(s, l);
    } else {
      var d :| BrokenAt(s, d) && d.Size() == mark.value;
      BrokenFollows(s, l, d);
    }
  }

  lemma {:induction false} RunFollows(s: State, run: seq<Label>, mark: Option<nat>)
    requires Followed(s, mark) && Legal(s, run)
    ensures Followed(After(s, run), Mark(s, run, mark))
    decreases |run|
  {
    if run != [] {
      StepFollows(s, run[0], mark);
      RunFollows(Apply(s, run[0]), run[1..], NextMark(s, run[0], mark));
    }
  }

  /** Over every run, however often rounds died in it: a request is broken exactly while the group of the
      last failure with a call unanswered is still in the history, neither repaired nor switched away,
      dropped or compressed; and so is a history between the rounds. */
  lemma BrokenExactly(s: State, run: seq<Label>)
    requires Init(s) && Legal(s, run)
    ensures var t := After(s, run);
            && (t.control.Waiting? ==> (WellFormed(t.control.request) <==> Mark(s, run, None).None?))
            && (t.control.Idle? || t.control.Finished? ==> (WellFormed(t.history) <==> Mark(s, run, None).None?))
  {
    InitKnown(s);
    RunFollows(s, run, None);
    var t, mark := After(s, run), Mark(s, run, None);
    assert TodoIds([]) == {};
    if mark.Some? {
      var d :| BrokenAt(t, d) && d.Size() == mark.value;
      BrokenIsNotGrouped(d);
    }
  }
}
