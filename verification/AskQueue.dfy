/** What becomes of each question: who asks it first, who has to queue it, and who answers it then. */
module AskQueue {
  import opened Common
  import opened Ownership

  /** The question a thread came with, read off the run. */
  function AskOf(run: seq<Label>, t: Tid): Option<Ask> {
    if run == [] then None
    else
      var l := run[|run| - 1];
      if l.t == t && l.action.Arrive? then Some(l.action.ask) else AskOf(run[..|run| - 1], t)
  }

  /** The questions queued since a batch was last taken. */
  function Unanswered(run: seq<Label>): seq<Ask> {
    if run == [] then []
    else
      var before, l := run[..|run| - 1], run[|run| - 1];
      if l.action.Finish? then []
      else if l.action.QueueAsk? && AskOf(before, l.t).Some? then Unanswered(before) + [AskOf(before, l.t).value]
      else Unanswered(before)
  }

  /** A message was put into the response queue since a round last drained it. */
  function Relayed(run: seq<Label>): bool {
    if run == [] then false
    else
      match run[|run| - 1].action
      case Relay => true
      case QueueForced => true
      case Drain => false
      case _ => Relayed(run[..|run| - 1])
  }

  lemma {:induction false} RunLast(s: State, run: seq<Label>)
    requires run != [] && Legal(s, run)
    ensures var before, l := run[..|run| - 1], run[|run| - 1];
            Legal(s, before) && Enabled(After(s, before), l) && After(s, run) == Apply(After(s, before), l)
    decreases |run|
  {
    if |run| > 1 {
      RunLast(Apply(s, run[0]), run[1..]);
      assert run[..|run| - 1][1..] == run[1..][..|run| - 2];
    }
  }

  /** What the run says of the round's queue and of a thread that has not got its turn yet. */
  predicate Agrees(s: State, run: seq<Label>, t: Tid) {
    && s.flags.pending == Unanswered(run) && s.leftover == Relayed(run)
    && (At(s, t).Fresh? || At(s, t).MustQueue? ==> AskOf(run, t) == Some(At(s, t).ask))
  }

  lemma StepAgrees(run: seq<Label>, l: Label, s: State, t: Tid)
    requires Enabled(s, l) && Agrees(s, run, t) && Agrees(s, run, l.t)
    ensures Agrees(Apply(s, l), run + [l], t)
  {
    assert (run + [l])[..|run|] == run;
  }

  lemma {:induction false} RunAgrees(run: seq<Label>, t: Tid)
    requires Legal(INITIAL, run)
    ensures Agrees(After(INITIAL, run), run, t)
    decreases |run|
  {
    if run == [] {
      assert Agrees(INITIAL, [], t);
    } else {
      var before, l := run[..|run| - 1], run[|run| - 1];
      RunLast(INITIAL, run);
      RunAgrees(before, t);
      RunAgrees(before, l.t);
      LastAgrees(run, before, l, After(INITIAL, before), After(INITIAL, run), t);
    }
  }

  lemma LastAgrees(run: seq<Label>, before: seq<Label>, l: Label, s: State, u: State, t: Tid)
    requires run == before + [l] && Enabled(s, l) && Agrees(s, before, t) && Agrees(s, before, l.t)
    requires u == Apply(s, l)
    ensures Agrees(u, run, t)
  {
    StepAgrees(before, l, s, t);
  }

  /** Over every run: whoever finds the round free runs it with its own question; whoever does not still has
      its question, and puts it behind those that wait. A manager that finds it taken may try again. */
  lemma ClaimOrQueue(run: seq<Label>, t: Tid)
    requires Legal(INITIAL, run)
    ensures var s := After(INITIAL, run);
            && (Enabled(s, Label(t, TryClaim)) ==>
                  AskOf(run, t).Some? &&
                  At(Apply(s, Label(t, TryClaim)), t) ==
                    if s.flags.active then MustQueue(AskOf(run, t).value) else Owner([AskOf(run, t).value]))
            && (Enabled(s, Label(t, QueueAsk)) ==>
                  AskOf(run, t).Some? &&
                  Apply(s, Label(t, QueueAsk)).flags.pending == Unanswered(run) + [AskOf(run, t).value])
            && (Enabled(s, Label(t, ManagerClaim)) ==>
                  At(Apply(s, Label(t, ManagerClaim)), t) == if s.flags.active then Manager else Managing)
  {
    RunAgrees(run, t);
  }

  /** Over every run: an owner that is through takes all the questions queued since the last batch was taken,
      in order; an empty batch if there are none but relayed messages are left; and otherwise it gives the
      round up. */
  lemma FinishTakesAll(run: seq<Label>, t: Tid)
    requires Legal(INITIAL, run) && Enabled(After(INITIAL, run), Label(t, Finish))
    ensures var s := After(INITIAL, run);
            var u := Apply(s, Label(t, Finish));
            && u.flags.pending == [] && u.arrived == s.arrived
            && At(u, t) == (if Unanswered(run) != [] || Relayed(run) then Owner(Unanswered(run)) else Leaving(false))
            && u.flags.active == (s.flags.active && At(u, t).Owner?)
  {
    RunAgrees(run, t);
  }

  // ------------------------------------------------------------- rounds without an owner

  /** The thread found nobody running the round when it last entered it. */
  ghost predicate FoundFree(run: seq<Label>, t: Tid)
    requires Legal(INITIAL, run)
  {
    run != [] &&
    var before, l := run[..|run| - 1], run[|run| - 1];
    RunLast(INITIAL, run);
    if l == Label(t, EnterResponse) then !After(INITIAL, before).flags.active else FoundFree(before, t)
  }

  lemma StepEnters(s: State, l: Label, t: Tid, found: bool)
    requires Enabled(s, l) && (At(s, t).InRound? ==> At(s, t).claimedHere == found)
    ensures var now := if l == Label(t, EnterResponse) then !s.flags.active else found;
            At(Apply(s, l), t).InRound? ==> At(Apply(s, l), t).claimedHere == now
  {
  }

  /** Over every run: a round that is entered without an owner is active from then on, and given back by
      the one who entered it so; whoever entered one that is owned leaves it to its owner. */
  lemma {:induction false} RoundIsGivenBack(run: seq<Label>, t: Tid)
    requires Legal(INITIAL, run)
    ensures var s := After(INITIAL, run);
            && (At(s, t).InRound? ==> At(s, t).claimedHere == FoundFree(run, t))
            && (Enabled(s, Label(t, EnterResponse)) ==> Apply(s, Label(t, EnterResponse)).flags.active)
            && (Enabled(s, Label(t, LeaveResponse)) ==>
                  Apply(s, Label(t, LeaveResponse)).flags.active == (s.flags.active && !FoundFree(run, t)))
    decreases |run|
  {
    if run != [] {
      var before, l := run[..|run| - 1], run[|run| - 1];
      RunLast(INITIAL, run);
      RoundIsGivenBack(before, t);
      StepEnters(After(INITIAL, before), l, t, FoundFree(before, t));
    }
  }
}
