/** Shaping what is sent: adjacent user messages leave as one, notes go in front of the question. */
module Merge {
  import opened Messages

  const SEPARATOR := "\n\n"

  /** A provider object loses everything but its text when another text is joined to it. */
  function Base(m: Message): Message {
    if m.sdk then Plain(User, m.content) else m
  }

  function JoinTwo(previous: Message, m: Message): Message {
    Base(previous).(role := User, content := previous.content + SEPARATOR + m.content)
  }

  predicate Seam(a: History, b: History) {
    a != [] && b != [] && a[|a| - 1].role == User && b[0].role == User
  }

  /** The list kept so far, after one more message. */
  function MergeStep(merged: History, m: Message): History {
    if Seam(merged, [m]) then merged[..|merged| - 1] + [JoinTwo(merged[|merged| - 1], m)]
    else merged + [m]
  }

  function Continue(merged: History, ms: History): History
    decreases |ms|
  {
    if ms == [] then merged else Continue(MergeStep(merged, ms[0]), ms[1..])
  }

  /** The outgoing form of a history. */
  function Merged(ms: History): History {
    Continue([], ms)
  }

  method MergeAdjacentUserMessages(messages: History) returns (merged: History)
    ensures merged == Merged(messages)
  {
    merged := [];
    assert messages[0..] == messages;
    for i := 0 to |messages|
      invariant Continue(merged, messages[i..]) == Merged(messages)
    {
      var msg := messages[i];
      assert messages[i..][1..] == messages[i + 1..];
      if merged != [] && merged[|merged| - 1].role == User && msg.role == User {
        merged := merged[..|merged| - 1] + [JoinTwo(merged[|merged| - 1], msg)];
      } else {
        merged := merged + [msg];
      }
    }
  }

  // --------------------------------------------------------- reference: run by run

  function LeadingUsers(ms: History): (run: History)
    ensures run <= ms
    ensures forall m | m in run :: m.role == User
  {
    if ms != [] && ms[0].role == User then [ms[0]] + LeadingUsers(ms[1..]) else []
  }

  function Texts(run: History): string
    requires run != []
  {
    if |run| == 1 then run[0].content else run[0].content + SEPARATOR + Texts(run[1..])
  }

  /** A run of user messages as one message: the first one, carrying all texts in order. */
  function JoinRun(run: History): Message
    requires run != []
  {
    if |run| == 1 then run[0] else Base(run[0]).(role := User, content := Texts(run))
  }

  function ByRuns(ms: History): History
    decreases |ms|
  {
    if ms == [] then []
    else if ms[0].role == User then [JoinRun(LeadingUsers(ms))] + ByRuns(ms[|LeadingUsers(ms)|..])
    else [ms[0]] + ByRuns(ms[1..])
  }

  /** Joined messages keep what the first of them carried besides its text, unless that is a provider
      object: of such a one only the text is kept. */
  lemma JoinRunMeans(run: History)
    requires |run| >= 2 && forall m | m in run :: m.role == User
    ensures var first, joined := run[0], JoinRun(run);
            && joined.role == User && !joined.sdk && joined.content == Texts(run)
            && (first.sdk ==> joined == Plain(User, Texts(run)))
            && (!first.sdk ==> joined == first.(content := Texts(run)))
  {
    assert run[0] in run;
  }

  lemma StepLocal(merged: History, x: Message, m: Message)
    ensures MergeStep(merged + [x], m) == merged + MergeStep([x], m)
  {
    var kept := merged + [x];
    assert kept[..|kept| - 1] == merged && [x][..0] == [];
  }

  lemma StepOfOne(x: Message, m: Message)
    ensures MergeStep([x], m) == if x.role == User && m.role == User then [JoinTwo(x, m)] else [x] + [m]
  {
    assert [x][..0] == [];
  }

  lemma {:induction false} ContinueLocal(merged: History, x: Message, ms: History)
    ensures Continue(merged + [x], ms) == merged + Continue([x], ms)
    decreases |ms|
  {
    if ms != [] {
      var m, tail := ms[0], ms[1..];
      StepLocal(merged, x, m);
      StepOfOne(x, m);
      if x.role == User && m.role == User {
        ContinueLocal(merged, JoinTwo(x, m), tail);
      } else {
        ContinueLocal(merged + [x], m, tail);
        ContinueLocal([x], m, tail);
        Regroup(merged, x, [m]);
        Regroup(merged, x, Continue([m], tail));
      }
    }
  }

  /** Without a seam the list kept so far is final. */
  lemma ContinueAppends(merged: History, ms: History)
    requires !Seam(merged, ms)
    ensures Continue(merged, ms) == merged + Merged(ms)
  {
    if ms != [] {
      assert MergeStep(merged, ms[0]) == merged + [ms[0]];
      assert MergeStep([], ms[0]) == [ms[0]];
      ContinueLocal(merged, ms[0], ms[1..]);
    }
  }

  lemma JoinTwoThenRun(x: Message, run: History)
    requires x.role == User && run != []
    ensures JoinRun([x] + run) == JoinRun([JoinTwo(x, run[0])] + run[1..])
  {
    assert ([x] + run)[1..] == run;
    var joined := [JoinTwo(x, run[0])] + run[1..];
    if |run| > 1 {
      assert joined[1..] == run[1..];
      assert Texts([x] + run) == x.content + SEPARATOR + Texts(run);
      assert Texts(run) == run[0].content + SEPARATOR + Texts(run[1..]);
      assert Texts(joined) == joined[0].content + SEPARATOR + Texts(run[1..]);
      assert x.content + SEPARATOR + (run[0].content + SEPARATOR + Texts(run[1..])) ==
             (x.content + SEPARATOR + run[0].content) + SEPARATOR + Texts(run[1..]);
    }
  }

  lemma MergedOfSeam(x: Message, y: Message, rest: History)
    requires x.role == User && y.role == User
    ensures Merged([x] + ([y] + rest)) == Merged([JoinTwo(x, y)] + rest)
  {
    var ms, joined := [x] + ([y] + rest), [JoinTwo(x, y)] + rest;
    assert ms[1..] == [y] + rest && ([y] + rest)[1..] == rest && joined[1..] == rest;
    assert MergeStep([], x) == [x] && MergeStep([x], y) == [JoinTwo(x, y)];
    assert MergeStep([], JoinTwo(x, y)) == [JoinTwo(x, y)];
    assert Continue([], ms) == Continue([x], [y] + rest);
    assert Continue([x], [y] + rest) == Continue([JoinTwo(x, y)], rest);
    assert Continue([], joined) == Continue([JoinTwo(x, y)], rest);
  }

  lemma ByRunsOfSeam(x: Message, y: Message, rest: History)
    requires x.role == User && y.role == User
    ensures ByRuns([x] + ([y] + rest)) == ByRuns([JoinTwo(x, y)] + rest)
  {
    var ms, joined := [x] + ([y] + rest), [JoinTwo(x, y)] + rest;
    assert ms[1..] == [y] + rest && ([y] + rest)[1..] == rest && joined[1..] == rest;
    var more := LeadingUsers(rest);
    LeadingUsersMore(y, rest);
    LeadingUsersMore(x, [y] + rest);
    LeadingUsersMore(JoinTwo(x, y), rest);
    JoinTwoThenRun(x, [y] + more);
    assert ([y] + more)[1..] == more;
    assert ms[2 + |more|..] == joined[1 + |more|..];
  }

  lemma LeadingUsersMore(x: Message, ms: History)
    requires x.role == User
    ensures LeadingUsers([x] + ms) == [x] + LeadingUsers(ms)
  {
    assert ([x] + ms)[1..] == ms;
  }

  /** The left-to-right loop joins exactly the maximal runs, texts in order. */
  lemma {:induction false} MergedByRuns(ms: History)
    ensures Merged(ms) == ByRuns(ms)
    decreases |ms|
  {
    if ms != [] {
      var x, rest := ms[0], ms[1..];
      if Seam([x], rest) {
        var joined := [JoinTwo(x, rest[0])] + rest[1..];
        assert ms == [x] + ([rest[0]] + rest[1..]);
        MergedByRuns(joined);
        MergedOfSeam(x, rest[0], rest[1..]);
        ByRunsOfSeam(x, rest[0], rest[1..]);
      } else {
        assert MergeStep([], x) == [x];
        ContinueAppends([x], rest);
        MergedByRuns(rest);
        if x.role == User {
          assert LeadingUsers(ms) == [x];
        }
      }
    }
  }

  // -------------------------------------------------------------------- properties

  predicate NoAdjacentUsers(ms: History) {
    forall i | 0 <= i < |ms| - 1 :: !(ms[i].role == User && ms[i + 1].role == User)
  }

  lemma {:induction false} LeadingUsersMaximal(ms: History)
    ensures var rest := ms[|LeadingUsers(ms)|..];
            rest == [] || rest[0].role != User
  {
    if ms != [] && ms[0].role == User {
      LeadingUsersMaximal(ms[1..]);
      assert ms[|LeadingUsers(ms)|..] == ms[1..][|LeadingUsers(ms[1..])|..];
    }
  }

  lemma {:induction false} ByRunsHead(ms: History)
    ensures ms == [] <==> ByRuns(ms) == []
    ensures ms != [] ==> (ByRuns(ms)[0].role == User <==> ms[0].role == User)
  {
  }

  lemma {:induction false} ByRunsSeparates(ms: History)
    ensures NoAdjacentUsers(ByRuns(ms))
    decreases |ms|
  {
    if ms != [] {
      var n := if ms[0].role == User then |LeadingUsers(ms)| else 1;
      ByRunsSeparates(ms[n..]);
      ByRunsHead(ms[n..]);
      LeadingUsersMaximal(ms);
    }
  }

  lemma {:induction false} SeparatedUnchanged(ms: History)
    requires NoAdjacentUsers(ms)
    ensures Merged(ms) == ms
  {
    if ms != [] {
      var x, rest := ms[0], ms[1..];
      assert forall i | 0 <= i < |rest| :: rest[i] == ms[i + 1];
      if rest != [] {
        assert !(ms[0].role == User && ms[0 + 1].role == User);
      }
      SeparatedUnchanged(rest);
      assert MergeStep([], x) == [x];
      ContinueAppends([x], rest);
      assert [x] + rest == ms;
    }
  }

  /** No two user messages are left side by side, and merging again changes nothing. */
  lemma MergedSeparates(ms: History)
    ensures NoAdjacentUsers(Merged(ms))
    ensures Merged(Merged(ms)) == Merged(ms)
  {
    MergedByRuns(ms);
    ByRunsSeparates(ms);
    SeparatedUnchanged(Merged(ms));
  }

  lemma {:induction false} ContinueConcat(merged: History, a: History, b: History)
    ensures Continue(merged, a + b) == Continue(Continue(merged, a), b)
    decreases |a|
  {
    if a == [] {
      assert a + b == b;
    } else {
      assert (a + b)[1..] == a[1..] + b;
      ContinueConcat(MergeStep(merged, a[0]), a[1..], b);
    }
  }

  lemma {:induction false} ContinueEnd(merged: History, ms: History)
    requires ms != []
    ensures Continue(merged, ms) != []
    ensures Continue(merged, ms)[|Continue(merged, ms)| - 1].role == ms[|ms| - 1].role
    decreases |ms|
  {
    if |ms| == 1 {
      assert ms[1..] == [];
    } else {
      ContinueEnd(MergeStep(merged, ms[0]), ms[1..]);
    }
  }

  lemma {:induction false} ContinueLength(x: Message, ms: History)
    ensures |Continue([x], ms)| == 1 + |Merged(ms)| - if Seam([x], ms) then 1 else 0
    decreases |ms|
  {
    if Seam([x], ms) {
      assert MergeStep([x], ms[0]) == [JoinTwo(x, ms[0])];
      assert MergeStep([], ms[0]) == [ms[0]];
      ContinueLength(JoinTwo(x, ms[0]), ms[1..]);
      ContinueLength(ms[0], ms[1..]);
    } else {
      ContinueAppends([x], ms);
    }
  }

  lemma SeamCostsOne(a: History, b: History)
    requires Seam(a, b)
    ensures |Merged(a + b)| == |Merged(a)| + |Merged(b)| - 1
  {
    var head := Merged(a);
    ContinueConcat([], a, b);
    ContinueEnd([], a);
    var body, x := head[..|head| - 1], head[|head| - 1];
    assert head == body + [x];
    ContinueLocal(body, x, b);
    ContinueLength(x, b);
  }

  lemma NoSeamAppends(a: History, b: History)
    requires !Seam(a, b)
    ensures Merged(a + b) == Merged(a) + Merged(b)
  {
    ContinueConcat([], a, b);
    if a != [] {
      ContinueEnd([], a);
    }
    ContinueAppends(Merged(a), b);
  }

  /** Merging distributes over concatenation exactly when no user meets a user at the seam; then
      the longer request starts with the shorter one. */
  lemma MergeDistributes(a: History, b: History)
    ensures Merged(a + b) == Merged(a) + Merged(b) <==> !Seam(a, b)
    ensures !Seam(a, b) ==> Merged(a) <= Merged(a + b)
  {
    if Seam(a, b) {
      SeamCostsOne(a, b);
    } else {
      NoSeamAppends(a, b);
    }
  }

  // ------------------------------------------------------------ groups stay intact

  lemma {:induction false} UsersInFront(run: History, rest: History, current: set<string>)
    requires run != [] && forall m | m in run :: m.role == User
    ensures Grouped(run + rest) <==> Grouped(rest)
    ensures OwnedFrom(run + rest, current) <==> OwnedFrom(rest, {})
    ensures LeadingTools(run + rest) == []
    decreases |run|
  {
    assert (run + rest)[1..] == run[1..] + rest;
    if |run| > 1 {
      UsersInFront(run[1..], rest, {});
    } else {
      assert run[1..] + rest == rest;
    }
  }

  lemma OneInFront(x: Message, a: History, b: History)
    requires LeadingTools(a) == LeadingTools(b) && (AllTools(a) <==> AllTools(b))
    ensures LeadingTools([x] + a) == LeadingTools([x] + b)
    ensures AllTools([x] + a) <==> AllTools([x] + b)
  {
    assert ([x] + a)[1..] == a && ([x] + b)[1..] == b;
  }

  lemma {:induction false} ByRunsTools(ms: History)
    ensures LeadingTools(ByRuns(ms)) == LeadingTools(ms)
    ensures AllTools(ByRuns(ms)) <==> AllTools(ms)
    decreases |ms|
  {
    if ms == [] {
    } else if ms[0].role == User {
      ByRunsHead(ms);
      NoToolsBehind(ms);
      NoToolsBehind(ByRuns(ms));
    } else {
      var x, rest := ms[0], ms[1..];
      assert ms == [x] + rest;
      ByRunsTools(rest);
      ByRunsOfOther(x, rest);
      OneInFront(x, rest, ByRuns(rest));
    }
  }

  lemma ByRunsOfOther(x: Message, rest: History)
    requires x.role != User
    ensures ByRuns([x] + rest) == [x] + ByRuns(rest)
  {
    assert ([x] + rest)[1..] == rest;
  }

  lemma NoToolsBehind(ms: History)
    requires ms != [] && ms[0].role == User
    ensures LeadingTools(ms) == [] && !AllTools(ms)
  {
    assert ms[0] in ms;
  }

  lemma {:induction false} ByRunsGroups(ms: History, current: set<string>)
    ensures Grouped(ByRuns(ms)) <==> Grouped(ms)
    ensures OwnedFrom(ByRuns(ms), current) <==> OwnedFrom(ms, current)
    decreases |ms|
  {
    if ms != [] {
      if ms[0].role == User {
        var run := LeadingUsers(ms);
        var rest := ms[|run|..];
        assert ms == run + rest;
        ByRunsGroups(rest, {});
        UsersInFront(run, rest, current);
        UsersInFront([JoinRun(run)], ByRuns(rest), current);
      } else {
        ByRunsGroups(ms[1..], OwnerAfter(current, ms[0]));
        ByRunsTools(ms[1..]);
        assert ByRuns(ms)[1..] == ByRuns(ms[1..]);
      }
    }
  }

  /** The request is well formed exactly when the stored history is. */
  lemma MergedWellFormed(ms: History)
    ensures WellFormed(Merged(ms)) <==> WellFormed(ms)
  {
    MergedByRuns(ms);
    ByRunsGroups(ms, {});
  }

  // ------------------------------------------------------- in front of the question

  /** The position of the newest user message, or -1. */
  function LastUser(ms: History): (index: int)
    ensures -1 <= index < |ms|
    ensures index >= 0 ==> ms[index].role == User
    ensures forall i | index < i < |ms| :: ms[i].role != User
  {
    if ms == [] then -1
    else if ms[|ms| - 1].role == User then |ms| - 1
    else LastUser(ms[..|ms| - 1])
  }

  /** The note goes in front of the newest question, or to the end when there is none. */
  function Noted(ms: History, note: Message): History {
    var i := LastUser(ms);
    if i < 0 then ms + [note] else ms[..i] + [note] + ms[i..]
  }

  method InsertBeforeLastUser(messages: History, note: Message) returns (found: bool, result: History)
    ensures found <==> exists m :: m in messages && m.role == User
    ensures found ==> result == Noted(messages, note)
    ensures !found ==> result == messages
  {
    var index := |messages|;
    while index > 0
      invariant 0 <= index <= |messages|
      invariant forall i | index <= i < |messages| :: messages[i].role != User
    {
      index := index - 1;
      if messages[index].role == User {
        assert index == LastUser(messages);
        return true, messages[..index] + [note] + messages[index..];
      }
    }
    return false, messages;
  }

  /** A note in front of the question never lands inside a tool-call group. */
  lemma NotedWellFormed(ms: History, note: Message)
    requires note.role == User
    ensures WellFormed(ms) ==> WellFormed(Noted(ms, note))
    ensures Owned(ms) ==> Owned(Noted(ms, note))
  {
    SingleWellFormed(note);
    var i := LastUser(ms);
    if i < 0 {
      OwnedAppend(ms, [note]);
      if WellFormed(ms) {
        WellFormedConcat(ms, [note]);
      }
    } else {
      var a, b := ms[..i], ms[i..];
      assert ms == a + b;
      if Owned(ms) {
        OwnedCut(a, b);
        OwnedAppend(a, [note]);
        OwnedAppend(a + [note], b);
      }
      if WellFormed(ms) {
        WellFormedCut(a, b);
        WellFormedConcat(a, [note]);
        WellFormedConcat(a + [note], b);
      }
    }
  }

  /** Two owned pieces stay owned when glued. */
  lemma OwnedAppend(a: History, b: History)
    requires Owned(b)
    ensures Owned(a) ==> Owned(a + b)
  {
    OwnedConcat(a, b, {});
    OwnedHasNoOrphanStart(b);
    OwnedFresh(b, {}, OwnerAfterAll({}, a));
  }
}
