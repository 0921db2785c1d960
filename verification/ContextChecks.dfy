/** The context checks of a round as series of the machine's steps. */
module ContextChecks {
  import opened Common
  import opened Messages
  import opened Window
  import opened RoundRun
  import Rounds

  function EditAll(ms: History, edits: seq<Edit>): History
    decreases |edits|
  {
    if edits == [] then ms else EditAll(Edited(ms, edits[0]), edits[1..])
  }

  /** A summary is there only if it was asked for. */
  predicate Arrived(ms: History, summary: Option<string>) {
    summary.Some? && Compressible(ms) ==> AsksSummary(ms)
  }

  predicate MayFollow(ms: History, e: Edit) {
    !e.HandOff? && (e.Compress? ==> Arrived(ms, e.summary))
  }

  predicate Feasible(ms: History, edits: seq<Edit>)
    decreases |edits|
  {
    edits == [] || (MayFollow(ms, edits[0]) && Feasible(Edited(ms, edits[0]), edits[1..]))
  }

  /** What the machine does for an edit: a compression asks first, if it has to, and is nothing where there
      are no older rounds. */
  function StepsOf(ms: History, e: Edit): seq<Label> {
    if !e.Compress? then [EditContext(e)] + []
    else if AsksSummary(ms) then [AskSummary] + ([EditContext(e)] + [])
    else if Compressible(ms) then [EditContext(e)] + []
    else []
  }

  function EditRun(ms: History, edits: seq<Edit>): seq<Label>
    decreases |edits|
  {
    if edits == [] then [] else StepsOf(ms, edits[0]) + EditRun(Edited(ms, edits[0]), edits[1..])
  }

  /** The summarizing requests of a run. */
  function Requests(run: seq<Label>): nat {
    if run == [] then 0
    else (if run[0].AskHandOff? || run[0].AskSummary? then 1 else 0) + Requests(run[1..])
  }

  lemma {:induction false} RequestsConcat(a: seq<Label>, b: seq<Label>)
    ensures Requests(a + b) == Requests(a) + Requests(b)
  {
    if a == [] {
      assert a + b == b;
    } else {
      assert (a + b)[1..] == a[1..] + b;
      RequestsConcat(a[1..], b);
    }
  }

  /** The state behind a series of edits, apart from the count of late requests. */
  ghost predicate Checked(s: State, t: State, ms: History) {
    t == s.(history := ms, asked := t.asked)
  }

  lemma StepsRun(s: State, e: Edit)
    requires InCheck(s.control) && MayWork(s) && MayFollow(s.history, e)
    ensures Legal(s, StepsOf(s.history, e))
    ensures Checked(s, After(s, StepsOf(s.history, e)), Edited(s.history, e))
    ensures Requests(StepsOf(s.history, e)) == if e.Compress? && AsksSummary(s.history) then 1 else 0
  {
    if e.Compress? && AsksSummary(s.history) {
      var u := Apply(s, AskSummary);
      var t := Apply(u, EditContext(e));
      LegalStep(u, EditContext(e), [], t);
      LegalStep(s, AskSummary, [EditContext(e)] + [], t);
      RequestsConcat([AskSummary], [EditContext(e)] + []);
    } else if !e.Compress? || Compressible(s.history) {
      LegalStep(s, EditContext(e), [], Apply(s, EditContext(e)));
    }
  }

  /** A feasible series of edits is a run of the machine, and it sends one summarizing request at most. */
  lemma {:induction false} EditsRun(s: State, edits: seq<Edit>)
    requires InCheck(s.control) && MayWork(s) && Feasible(s.history, edits)
    ensures Legal(s, EditRun(s.history, edits))
    ensures Checked(s, After(s, EditRun(s.history, edits)), EditAll(s.history, edits))
    ensures Requests(EditRun(s.history, edits)) <= if Compressible(s.history) then 1 else 0
    decreases |edits|
  {
    if edits != [] {
      var e, ms := edits[0], s.history;
      StepsRun(s, e);
      EditAsksNoMore(ms, e);
      var t := After(s, StepsOf(ms, e));
      EditsRun(t, edits[1..]);
      LegalConcat(s, StepsOf(ms, e), EditRun(t.history, edits[1..]));
      RequestsConcat(StepsOf(ms, e), EditRun(t.history, edits[1..]));
    }
  }

  lemma {:induction false} EditsConcat(ms: History, a: seq<Edit>, b: seq<Edit>)
    ensures EditAll(ms, a + b) == EditAll(EditAll(ms, a), b)
    ensures Feasible(ms, a + b) <==> Feasible(ms, a) && Feasible(EditAll(ms, a), b)
    decreases |a|
  {
    if a == [] {
      assert a + b == b;
    } else {
      assert (a + b)[1..] == a[1..] + b;
      EditsConcat(Edited(ms, a[0]), a[1..], b);
    }
  }

  lemma OneEdit(ms: History, e: Edit)
    ensures EditAll(ms, [e]) == Edited(ms, e)
    ensures Feasible(ms, [e]) <==> MayFollow(ms, e)
  {
    assert [e][1..] == [];
  }

  lemma AppendDrop(ms: History, edits: seq<Edit>, reached: History)
    requires EditAll(ms, edits) == reached && Feasible(ms, edits)
    ensures EditAll(ms, edits + [DropOldest]) == Rounds.DropRounds(reached, 1)
    ensures Feasible(ms, edits + [DropOldest])
  {
    EditsConcat(ms, edits, [DropOldest]);
    OneEdit(reached, DropOldest);
  }

  lemma {:induction false} DropsByEdits(ms: History, k: nat) returns (edits: seq<Edit>)
    requires k == 0 || k < Rounds.RoundCount(ms)
    ensures EditAll(ms, edits) == Rounds.DropRounds(ms, k) && Feasible(ms, edits)
    decreases k
  {
    if k == 0 {
      edits := [];
    } else {
      var fewer := DropsByEdits(ms, k - 1);
      AppendDrop(ms, fewer, Rounds.DropRounds(ms, k - 1));
      Rounds.DropOneMore(ms, k - 1);
      edits := fewer + [DropOldest];
    }
  }

  lemma ReductionByEdits(ms: History, lim: Limits, note: Note) returns (edits: seq<Edit>)
    requires lim.Valid()
    ensures EditAll(ms, edits) == Reduced(ms, lim, note) && Feasible(ms, edits)
  {
    edits := [];
    if !Fits(ms, lim) {
      var cut := Truncated(ms, lim.MessageCap(), note);
      LeastDropIsLeast(cut, lim);
      var drops := DropsByEdits(cut, LeastDrop(cut, lim));
      OneEdit(ms, CutTexts(lim.MessageCap(), note));
      EditsConcat(ms, [CutTexts(lim.MessageCap(), note)], drops);
      edits := [CutTexts(lim.MessageCap(), note)] + drops;
    }
  }

  lemma CompressReduceByEdits(ms: History, lim: Limits, note: Note, prefix: string, summary: Option<string>)
    returns (edits: seq<Edit>)
    requires lim.Valid() && Arrived(ms, summary)
    ensures EditAll(ms, edits) == Reduced(Compressed(ms, SummaryNote(prefix, summary)), lim, note)
    ensures Feasible(ms, edits)
  {
    OneEdit(ms, Compress(prefix, summary));
    var rest := ReductionByEdits(Compressed(ms, SummaryNote(prefix, summary)), lim, note);
    EditsConcat(ms, [Compress(prefix, summary)], rest);
    edits := [Compress(prefix, summary)] + rest;
  }

  lemma PreflightByEdits(ms: History, lim: Limits, note: Note, p: Prefixes, s: Summaries)
    returns (edits: seq<Edit>)
    requires lim.Valid() && Arrived(ms, s.automatic)
    ensures EditAll(ms, edits) == Preflight(ms, lim, note, p, s) && Feasible(ms, edits)
  {
    var estimate := RequestEstimate(ms, lim);
    edits := [];
    if 100 * estimate >= 95 * lim.window {
      edits := ReductionByEdits(ms, lim, note);
    } else if 100 * estimate >= 80 * lim.window {
      edits := CompressReduceByEdits(ms, lim, note, p.summary, s.automatic);
    }
  }

  /** What follows the hand-off in front of a request: a compaction that was asked for, and the preflight. */
  lemma RestByEdits(ms: History, lim: Limits, note: Note, p: Prefixes, s: Summaries, compaction: bool)
    returns (edits: seq<Edit>)
    requires lim.Valid() && Arrived(ms, s.forced) && Arrived(Prepared(ms, false, compaction, p, s), s.automatic)
    ensures EditAll(ms, edits) == Preflight(Prepared(ms, false, compaction, p, s), lim, note, p, s)
    ensures Feasible(ms, edits)
  {
    var first := if compaction then [Compress(p.summary, s.forced)] else [];
    OneEdit(ms, Compress(p.summary, s.forced));
    var second := PreflightByEdits(EditAll(ms, first), lim, note, p, s);
    EditsConcat(ms, first, second);
    edits := first + second;
  }

  /** The machine's steps for a pending hand-off. */
  function HandOffRun(s: State, prefix: string, summary: Option<string>): seq<Label> {
    if s.handOff.None? then []
    else if HasText(s.handOff.value) then [AskHandOff] + ([EditContext(HandOff(prefix, summary))] + [])
    else [SkipHandOff] + []
  }

  lemma HandOffRuns(s: State, prefix: string, summary: Option<string>)
    requires s.control == Checking(Free)
    requires s.handOff.Some? && summary.Some? ==> HasText(s.handOff.value)
    ensures var run := HandOffRun(s, prefix, summary);
            && Legal(s, run) && Requests(run) <= (if s.handOff.Some? then 1 else 0)
            && After(s, run) == s.(handOff := None, asked := After(s, run).asked,
                 history := if s.handOff.Some? then HandedOver(s.history, prefix, summary) else s.history)
  {
    if s.handOff.None? {
    } else if HasText(s.handOff.value) {
      var u := Apply(s, AskHandOff);
      var e := EditContext(HandOff(prefix, summary));
      LegalStep(u, e, [], Apply(u, e));
      LegalStep(s, AskHandOff, [e] + [], Apply(u, e));
      RequestsConcat([AskHandOff], [e] + []);
    } else {
      LegalStep(s, SkipHandOff, [], Apply(s, SkipHandOff));
      assert [] + s.history == s.history;
    }
  }

  /** The machine reaches, in front of a request, exactly what the real check leaves: the deferred work and
      the preflight. It sends a request for a pending hand-off and, whatever the triggers say, one more at
      most, and only if there are older rounds to summarize. */
  lemma CheckInFrontIsRun(s: State, lim: Limits, note: Note, p: Prefixes, sums: Summaries, compaction: bool)
    returns (run: seq<Label>)
    requires lim.Valid() && s.control == Checking(Free)
    requires s.handOff.Some? && sums.handOff.Some? ==> HasText(s.handOff.value)
    requires var ms := Prepared(s.history, s.handOff.Some?, false, p, sums);
             Arrived(ms, sums.forced) && Arrived(Prepared(ms, false, compaction, p, sums), sums.automatic)
    ensures Legal(s, run)
    ensures Requests(run) <= (if s.handOff.Some? then 1 else 0) + if Compressible(s.history) then 1 else 0
    ensures var t := After(s, run);
            && t.history == Preflight(Prepared(s.history, s.handOff.Some?, compaction, p, sums), lim, note, p, sums)
            && t == s.(history := t.history, handOff := None, asked := t.asked)
  {
    var first := HandOffRun(s, p.handOff, sums.handOff);
    HandOffRuns(s, p.handOff, sums.handOff);
    HandedOverCounts(s.history, p.handOff, sums.handOff);
    var u := After(s, first);
    var edits := RestByEdits(u.history, lim, note, p, sums, compaction);
    EditsRun(u, edits);
    LegalConcat(s, first, EditRun(u.history, edits));
    RequestsConcat(first, EditRun(u.history, edits));
    run := first + EditRun(u.history, edits);
  }

  /** And so it does behind a request. */
  lemma CheckBehindIsRun(s: State, lim: Limits, note: Note, p: Prefixes, sums: Summaries, triggered: bool)
    returns (run: seq<Label>)
    requires lim.Valid() && s.control.PostCheck? && MayWork(s) && Arrived(s.history, sums.automatic)
    ensures Legal(s, run) && Requests(run) <= if Compressible(s.history) then 1 else 0
    ensures var t := After(s, run);
            && t.history == AfterRequest(s.history, triggered, lim, note, p, sums)
            && t == s.(history := t.history, asked := t.asked)
  {
    var edits := [];
    if triggered {
      edits := CompressReduceByEdits(s.history, lim, note, p.summary, sums.automatic);
    }
    EditsRun(s, edits);
    run := EditRun(s.history, edits);
  }
}
