/** Repairing a history: drop tool-call groups with missing results, and results nobody asked for. */
module Validate {
  import opened Messages

  predicate Answered(ms: History)
    requires ms != []
  {
    CallIds(ms[0]) <= Answers(LeadingTools(ms[1..]))
  }

  /** The repair, group by group; `known` are the ids of the groups kept so far. */
  function Repair(ms: History, known: set<string>): History
    decreases |ms|
  {
    if ms == [] then []
    else if IsCalling(ms[0]) then
      var n := 1 + |LeadingTools(ms[1..])|;
      if Answered(ms) then ms[..n] + Repair(ms[n..], known + CallIds(ms[0]))
      else Repair(ms[n..], known)
    else if ms[0].role == Tool && !(ms[0].answers != "" && ms[0].answers in known) then
      Repair(ms[1..], known)
    else
      [ms[0]] + Repair(ms[1..], known)
  }

  /** What `_validate_sequence` leaves of a history. */
  function Validated(ms: History): History {
    Repair(ms, {})
  }

  // -------------------------------------------------------------- the scanning loop

  function KnownIds(cleaned: History): set<string> {
    set m, c | m in cleaned && m.role == Assistant && c in m.calls && c.id != "" :: c.id
  }

  lemma KnownIdsAppend(cleaned: History, group: History)
    requires group != [] && AllTools(group[1..])
    ensures KnownIds(cleaned + group) ==
            KnownIds(cleaned) + if group[0].role == Assistant then CallIds(group[0]) else {}
  {
    assert group == [group[0]] + group[1..];
    assert forall m | m in cleaned + group :: m in cleaned || m == group[0] || m in group[1..];
    forall id | id in KnownIds(cleaned)
      ensures id in KnownIds(cleaned + group)
    {
      var m, c :| m in cleaned && m.role == Assistant && c in m.calls && c.id != "" && c.id == id;
      assert m in cleaned + group;
    }
    if group[0].role == Assistant {
      assert group[0] in cleaned + group;
    }
  }

  lemma {:induction false} LeadingToolsAreTools(ms: History)
    ensures AllTools(LeadingTools(ms))
    ensures !StartsRun(ms[|LeadingTools(ms)|..])
  {
    if ms != [] && ms[0].role == Tool {
      LeadingToolsAreTools(ms[1..]);
      assert ms[|LeadingTools(ms)|..] == ms[1..][|LeadingTools(ms[1..])|..];
    }
  }

  lemma LeadingToolsMaximal(ms: History, n: nat)
    requires n <= |ms| && AllTools(ms[..n]) && (n < |ms| ==> ms[n].role != Tool)
    ensures LeadingTools(ms) == ms[..n]
  {
    assert ms == ms[..n] + ms[n..];
    LeadingToolsConcat(ms[..n], ms[n..]);
  }

  lemma AppendGroup(cleaned: History, group: History, rest: History)
    ensures cleaned + (group + rest) == (cleaned + group) + rest
  {
  }

  /** Walks the cursor over the tool run that starts at `start`. */
  method CollectRun(messages: History, start: nat) returns (cursor: nat, present: set<string>)
    requires start <= |messages|
    ensures start <= cursor <= |messages|
    ensures messages[start..cursor] == LeadingTools(messages[start..])
    ensures present == Answers(LeadingTools(messages[start..]))
  {
    cursor, present := start, {};
    while cursor < |messages| && messages[cursor].role == Tool
      invariant start <= cursor <= |messages|
      invariant AllTools(messages[start..cursor])
      invariant present == Answers(messages[start..cursor])
    {
      var result := messages[cursor];
      assert messages[start..cursor + 1] == messages[start..cursor] + [result];
      if result.answers != "" {
        present := present + {result.answers};
      }
      cursor := cursor + 1;
    }
    var rest := messages[start..];
    assert rest[..cursor - start] == messages[start..cursor];
    assert cursor < |messages| ==> rest[cursor - start] == messages[cursor];
    LeadingToolsMaximal(rest, cursor - start);
  }

  /** One round of the loop, seen from the reference repair. */
  lemma RepairFromIndex(messages: History, index: nat, known: set<string>)
    requires index < |messages|
    ensures var msg := messages[index];
            var end := index + 1 + |LeadingTools(messages[index + 1..])|;
            Repair(messages[index..], known) ==
              if IsCalling(msg) then
                if CallIds(msg) <= Answers(LeadingTools(messages[index + 1..]))
                then messages[index..end] + Repair(messages[end..], known + CallIds(msg))
                else Repair(messages[end..], known)
              else if msg.role == Tool && !(msg.answers != "" && msg.answers in known)
              then Repair(messages[index + 1..], known)
              else [msg] + Repair(messages[index + 1..], known)
  {
    var rest := messages[index..];
    var n := 1 + |LeadingTools(messages[index + 1..])|;
    assert rest[1..] == messages[index + 1..];
    assert rest[..n] == messages[index..index + n] && rest[n..] == messages[index + n..];
  }

  /** What is left to do after `index` messages, knowing these ids, completes the repair. */
  ghost predicate HalfwayWith(messages: History, index: nat, cleaned: History, known: set<string>) {
    index <= |messages| && cleaned + Repair(messages[index..], known) == Validated(messages)
  }

  ghost predicate Halfway(messages: History, index: nat, cleaned: History) {
    HalfwayWith(messages, index, cleaned, KnownIds(cleaned))
  }

  /** The ids known once the group at `index` is kept. */
  lemma GroupKnown(messages: History, index: nat, end: nat, cleaned: History)
    requires index < |messages| && IsCalling(messages[index])
    requires end == index + 1 + |LeadingTools(messages[index + 1..])|
    ensures KnownIds(cleaned + messages[index..end]) == KnownIds(cleaned) + CallIds(messages[index])
  {
    var rest := messages[index + 1..];
    LeadingToolsAreTools(rest);
    assert messages[index..end][1..] == rest[..|LeadingTools(rest)|] == LeadingTools(rest);
    KnownIdsAppend(cleaned, messages[index..end]);
  }

  lemma HalfwayBehind(messages: History, index: nat, end: nat, cleaned: History, known: set<string>, more: set<string>)
    requires HalfwayWith(messages, index, cleaned, known) && index <= end <= |messages|
    requires Repair(messages[index..], known) == messages[index..end] + Repair(messages[end..], more)
    ensures HalfwayWith(messages, end, cleaned + messages[index..end], more)
  {
    AppendGroup(cleaned, messages[index..end], Repair(messages[end..], more));
  }

  lemma KeepGroup(messages: History, index: nat, cleaned: History)
    requires Halfway(messages, index, cleaned) && index < |messages| && IsCalling(messages[index])
    requires CallIds(messages[index]) <= Answers(LeadingTools(messages[index + 1..]))
    ensures var end := index + 1 + |LeadingTools(messages[index + 1..])|;
            Halfway(messages, end, cleaned + messages[index..end])
  {
    var end := index + 1 + |LeadingTools(messages[index + 1..])|;
    var known := KnownIds(cleaned);
    RepairOfKept(messages, index, end, known);
    HalfwayBehind(messages, index, end, cleaned, known, known + CallIds(messages[index]));
    GroupKnown(messages, index, end, cleaned);
  }

  lemma RepairOfKept(messages: History, index: nat, end: nat, known: set<string>)
    requires index < |messages| && IsCalling(messages[index])
    requires end == index + 1 + |LeadingTools(messages[index + 1..])|
    requires CallIds(messages[index]) <= Answers(LeadingTools(messages[index + 1..]))
    ensures end <= |messages|
    ensures Repair(messages[index..], known) ==
            messages[index..end] + Repair(messages[end..], known + CallIds(messages[index]))
  {
    RepairFromIndex(messages, index, known);
  }

  lemma DropGroup(messages: History, index: nat, cleaned: History)
    requires Halfway(messages, index, cleaned) && index < |messages| && IsCalling(messages[index])
    requires !(CallIds(messages[index]) <= Answers(LeadingTools(messages[index + 1..])))
    ensures Halfway(messages, index + 1 + |LeadingTools(messages[index + 1..])|, cleaned)
  {
    RepairFromIndex(messages, index, KnownIds(cleaned));
  }

  lemma KeepOrDropOne(messages: History, index: nat, cleaned: History)
    requires Halfway(messages, index, cleaned) && index < |messages| && !IsCalling(messages[index])
    ensures var msg := messages[index];
            Halfway(messages, index + 1,
              if msg.role != Tool || (msg.answers != "" && msg.answers in KnownIds(cleaned))
              then cleaned + [msg] else cleaned)
  {
    RepairFromIndex(messages, index, KnownIds(cleaned));
    var msg := messages[index];
    KnownIdsAppend(cleaned, [msg]);
    assert KnownIds(cleaned + [msg]) == KnownIds(cleaned);
    AppendGroup(cleaned, [msg], Repair(messages[index + 1..], KnownIds(cleaned)));
  }

  /** One turn of the loop: a calling assistant with its whole run, or a single message. */
  method CleanStep(messages: History, index: nat, cleaned: History) returns (next: nat, kept: History)
    requires index < |messages| && Halfway(messages, index, cleaned)
    ensures index < next <= |messages| && Halfway(messages, next, kept)
  {
    var msg := messages[index];
    kept := cleaned;
    if IsCalling(msg) {
      var present;
      next, present := CollectRun(messages, index + 1);
      if CallIds(msg) <= present {
        KeepGroup(messages, index, cleaned);
        kept := cleaned + messages[index..next];
      } else {
        DropGroup(messages, index, cleaned);
      }
    } else {
      KeepOrDropOne(messages, index, cleaned);
      if msg.role != Tool || (msg.answers != "" && msg.answers in KnownIds(cleaned)) {
        kept := cleaned + [msg];
      }
      next := index + 1;
    }
  }

  /** The loop of the source: an index, a cursor over each tool run, and the list kept so far. */
  method CleanSequence(messages: History) returns (cleaned: History)
    ensures cleaned == Validated(messages)
  {
    cleaned := [];
    var index := 0;
    assert messages[0..] == messages && KnownIds([]) == {};
    while index < |messages|
      invariant Halfway(messages, index, cleaned)
      decreases |messages| - index
    {
      index, cleaned := CleanStep(messages, index, cleaned);
    }
    assert messages[|messages|..] == [];
  }

  // ------------------------------------------------------------------ what is kept

  predicate IsSubsequence(a: History, b: History) {
    if a == [] then true
    else if b == [] then false
    else if a[0] == b[0] then IsSubsequence(a[1..], b[1..])
    else IsSubsequence(a, b[1..])
  }

  lemma {:induction false} SubsequenceSkip(a: History, b: History, x: Message)
    requires IsSubsequence(a, b)
    ensures IsSubsequence(a, [x] + b)
    decreases |a| + |b|, 1
  {
    assert ([x] + b)[1..] == b;
    if a != [] && a[0] == x {
      SubsequenceTail(a, b);
    }
  }

  lemma {:induction false} SubsequenceTail(a: History, b: History)
    requires a != [] && IsSubsequence(a, b)
    ensures IsSubsequence(a[1..], b)
    decreases |a| + |b|, 0
  {
    if a[0] == b[0] {
      SubsequenceSkip(a[1..], b[1..], b[0]);
      assert [b[0]] + b[1..] == b;
    } else {
      SubsequenceTail(a, b[1..]);
      SubsequenceSkip(a[1..], b[1..], b[0]);
      assert [b[0]] + b[1..] == b;
    }
  }

  lemma {:induction false} SubsequenceCommonPrefix(p: History, a: History, b: History)
    requires IsSubsequence(a, b)
    ensures IsSubsequence(p + a, p + b)
  {
    if p == [] {
      assert p + a == a && p + b == b;
    } else {
      SubsequenceCommonPrefix(p[1..], a, b);
      assert (p + a)[1..] == p[1..] + a && (p + b)[1..] == p[1..] + b;
    }
  }

  lemma {:induction false} SubsequenceSkipAll(a: History, p: History, b: History)
    requires IsSubsequence(a, b)
    ensures IsSubsequence(a, p + b)
  {
    if p == [] {
      assert p + b == b;
    } else {
      SubsequenceSkipAll(a, p[1..], b);
      SubsequenceSkip(a, p[1..] + b, p[0]);
      assert [p[0]] + (p[1..] + b) == p + b;
    }
  }

  lemma {:induction false} SubsequenceLength(a: History, b: History)
    requires IsSubsequence(a, b)
    ensures |a| <= |b|
    ensures |a| == |b| ==> a == b
  {
    if a != [] {
      if a[0] == b[0] {
        SubsequenceLength(a[1..], b[1..]);
        assert a == [a[0]] + a[1..] && b == [b[0]] + b[1..];
      } else {
        SubsequenceLength(a, b[1..]);
      }
    }
  }

  lemma {:induction false} RepairIsSubsequence(ms: History, known: set<string>)
    ensures IsSubsequence(Repair(ms, known), ms)
    decreases |ms|
  {
    if ms != [] {
      if IsCalling(ms[0]) {
        var n := 1 + |LeadingTools(ms[1..])|;
        assert ms == ms[..n] + ms[n..];
        if Answered(ms) {
          RepairIsSubsequence(ms[n..], known + CallIds(ms[0]));
          SubsequenceCommonPrefix(ms[..n], Repair(ms[n..], known + CallIds(ms[0])), ms[n..]);
        } else {
          RepairIsSubsequence(ms[n..], known);
          SubsequenceSkipAll(Repair(ms[n..], known), ms[..n], ms[n..]);
        }
      } else {
        assert ms == [ms[0]] + ms[1..];
        RepairIsSubsequence(ms[1..], known);
        SubsequenceCommonPrefix([ms[0]], Repair(ms[1..], known), ms[1..]);
        SubsequenceSkip(Repair(ms[1..], known), ms[1..], ms[0]);
      }
    }
  }

  /** Comparing lengths is enough to see whether the repair changed anything. */
  lemma LengthDecides(ms: History)
    ensures IsSubsequence(Validated(ms), ms)
    ensures |Validated(ms)| == |ms| <==> Validated(ms) == ms
  {
    RepairIsSubsequence(ms, {});
    SubsequenceLength(Validated(ms), ms);
  }

  function NonTools(ms: History): History {
    if ms == [] then []
    else (if ms[0].role != Tool then [ms[0]] else []) + NonTools(ms[1..])
  }

  /** Everything that must survive, position by position: all but the unanswered callers. */
  function Survivors(ms: History): History {
    if ms == [] then []
    else (if ms[0].role != Tool && (IsCalling(ms[0]) ==> Answered(ms)) then [ms[0]] else []) + Survivors(ms[1..])
  }

  lemma {:induction false} NonToolsConcat(a: History, b: History)
    ensures NonTools(a + b) == NonTools(a) + NonTools(b)
  {
    if a == [] {
      assert a + b == b;
    } else {
      assert (a + b)[1..] == a[1..] + b;
      NonToolsConcat(a[1..], b);
    }
  }

  lemma {:induction false} ToolRunHasNoSurvivor(run: History, rest: History)
    requires AllTools(run)
    ensures NonTools(run) == [] && Survivors(run + rest) == Survivors(rest)
  {
    if run == [] {
      assert run + rest == rest;
    } else {
      assert (run + rest)[1..] == run[1..] + rest;
      ToolRunHasNoSurvivor(run[1..], rest);
    }
  }

  /** Cuts a calling assistant with its run off the front. */
  lemma GroupSplit(ms: History)
    requires ms != []
    ensures var run := LeadingTools(ms[1..]);
            var n := 1 + |run|;
            && n <= |ms| && ms[..n] == [ms[0]] + run && ms == ms[..n] + ms[n..]
            && AllTools(run) && !StartsRun(ms[n..])
  {
    LeadingToolsAreTools(ms[1..]);
    var run := LeadingTools(ms[1..]);
    assert ms[1..][|run|..] == ms[1 + |run|..];
  }

  lemma {:induction false} RepairKeepsSurvivors(ms: History, known: set<string>)
    ensures NonTools(Repair(ms, known)) == Survivors(ms)
    decreases |ms|
  {
    if ms != [] {
      if IsCalling(ms[0]) {
        var run := LeadingTools(ms[1..]);
        var n := 1 + |run|;
        GroupSplit(ms);
        assert ms[1..] == run + ms[n..];
        ToolRunHasNoSurvivor(run, ms[n..]);
        if Answered(ms) {
          RepairKeepsSurvivors(ms[n..], known + CallIds(ms[0]));
          NonToolsConcat(ms[..n], Repair(ms[n..], known + CallIds(ms[0])));
          NonToolsConcat([ms[0]], run);
          assert NonTools([ms[0]]) == [ms[0]];
        } else {
          RepairKeepsSurvivors(ms[n..], known);
        }
      } else {
        RepairKeepsSurvivors(ms[1..], known);
        NonToolsConcat([ms[0]], Repair(ms[1..], known));
      }
    }
  }

  /** Users, system notes and call-free answers all stay, in order; a calling assistant stays
      exactly when its adjacent results cover all its ids. */
  lemma KeepsExactlyTheSurvivors(ms: History)
    ensures NonTools(Validated(ms)) == Survivors(ms)
  {
    RepairKeepsSurvivors(ms, {});
  }

  // ------------------------------------------------------------- what is guaranteed

  lemma GroupIsGrouped(head: Message, run: History)
    requires AllTools(run) && CallIds(head) <= Answers(run)
    ensures Grouped([head] + run)
  {
    assert ([head] + run)[1..] == run;
    LeadingToolsOfRun(run);
    RunIsGrouped(run);
  }

  lemma {:induction false} RepairIsGrouped(ms: History, known: set<string>)
    ensures Grouped(Repair(ms, known))
    decreases |ms|
  {
    if ms != [] {
      if IsCalling(ms[0]) {
        var n := 1 + |LeadingTools(ms[1..])|;
        GroupSplit(ms);
        if Answered(ms) {
          RepairIsGrouped(ms[n..], known + CallIds(ms[0]));
          GroupIsGrouped(ms[0], LeadingTools(ms[1..]));
          GroupedConcat(ms[..n], Repair(ms[n..], known + CallIds(ms[0])), {});
        } else {
          RepairIsGrouped(ms[n..], known);
        }
      } else {
        RepairIsGrouped(ms[1..], known);
        assert Grouped([ms[0]]) by { assert [ms[0]][1..] == []; }
        GroupedConcat([ms[0]], Repair(ms[1..], known), {});
      }
    }
  }

  lemma {:induction false} RepairStartsNoRun(ms: History, known: set<string>)
    requires !StartsRun(ms)
    ensures !StartsRun(Repair(ms, known))
    decreases |ms|
  {
    if ms != [] && IsCalling(ms[0]) && !Answered(ms) {
      GroupSplit(ms);
      RepairStartsNoRun(ms[1 + |LeadingTools(ms[1..])|..], known);
    }
  }

  /** Repairing a list that begins with a complete group keeps the group and repairs the rest. */
  lemma RepairOfGroup(head: Message, run: History, rest: History, known: set<string>)
    requires IsCalling(head) && AllTools(run) && CallIds(head) <= Answers(run) && !StartsRun(rest)
    ensures Repair([head] + run + rest, known) == [head] + run + Repair(rest, known + CallIds(head))
  {
    var ms := [head] + run + rest;
    assert ms[1..] == run + rest;
    LeadingToolsConcat(run, rest);
    assert LeadingTools(ms[1..]) == run;
    assert ms[..1 + |run|] == [head] + run && ms[1 + |run|..] == rest;
  }

  lemma {:induction false} RepairIdempotent(ms: History, known: set<string>)
    ensures Repair(Repair(ms, known), known) == Repair(ms, known)
    decreases |ms|
  {
    if ms != [] {
      if IsCalling(ms[0]) {
        var run := LeadingTools(ms[1..]);
        var rest := ms[1 + |run|..];
        GroupSplit(ms);
        if Answered(ms) {
          var after := known + CallIds(ms[0]);
          RepairIdempotent(rest, after);
          RepairStartsNoRun(rest, after);
          RepairOfGroup(ms[0], run, Repair(rest, after), known);
        } else {
          RepairIdempotent(rest, known);
        }
      } else {
        RepairIdempotent(ms[1..], known);
        assert ([ms[0]] + Repair(ms[1..], known))[1..] == Repair(ms[1..], known);
      }
    }
  }

  /** Nothing the repair keeps is out of place: complete runs answer only their own head, and no
      loose result carries the id of an earlier kept group. */
  predicate NoStray(ms: History, known: set<string>)
    decreases |ms|
  {
    if ms == [] then true
    else if IsCalling(ms[0]) then
      var run := LeadingTools(ms[1..]);
      if Answered(ms)
      then (forall t | t in run :: t.answers in OfferedIds(ms[0])) && NoStray(ms[1 + |run|..], known + CallIds(ms[0]))
      else NoStray(ms[1 + |run|..], known)
    else
      && !(ms[0].role == Tool && ms[0].answers != "" && ms[0].answers in known)
      && NoStray(ms[1..], known)
  }

  /** The repaired history is owned exactly when the original held no stray result. */
  lemma {:induction false} RepairOwnedExactly(ms: History, known: set<string>)
    ensures Owned(Repair(ms, known)) <==> NoStray(ms, known)
    decreases |ms|
  {
    if ms != [] {
      if IsCalling(ms[0]) {
        var run := LeadingTools(ms[1..]);
        var rest := ms[1 + |run|..];
        GroupSplit(ms);
        if Answered(ms) {
          var after := known + CallIds(ms[0]);
          var kept := Repair(rest, after);
          RepairOwnedExactly(rest, after);
          RepairStartsNoRun(rest, after);
          OwnedConcat([ms[0]] + run, kept, {});
          OwnedFresh(kept, {}, OwnerAfterAll({}, [ms[0]] + run));
          assert ([ms[0]] + run)[1..] == run;
          OwnedRun(run, OfferedIds(ms[0]));
        } else {
          RepairOwnedExactly(rest, known);
        }
      } else {
        RepairOwnedExactly(ms[1..], known);
        assert ([ms[0]] + Repair(ms[1..], known))[1..] == Repair(ms[1..], known);
      }
    }
  }

  lemma {:induction false} OwnedHasNoStray(ms: History, known: set<string>)
    requires Owned(ms)
    ensures NoStray(ms, known)
    decreases |ms|
  {
    if ms != [] {
      if IsCalling(ms[0]) {
        var run := LeadingTools(ms[1..]);
        var rest := ms[1 + |run|..];
        GroupSplit(ms);
        OwnedCut([ms[0]] + run, rest);
        assert ([ms[0]] + run)[1..] == run;
        OwnedRun(run, OfferedIds(ms[0]));
        OwnedHasNoStray(rest, known);
        OwnedHasNoStray(rest, known + CallIds(ms[0]));
      } else {
        OwnedHasNoStray(ms[1..], known);
      }
    }
  }

  lemma {:induction false} RepairKeepsGroups(ms: History, known: set<string>)
    requires WellFormed(ms)
    ensures Repair(ms, known) == ms
    decreases |ms|
  {
    if ms != [] {
      if IsCalling(ms[0]) {
        var n := 1 + |LeadingTools(ms[1..])|;
        GroupSplit(ms);
        WellFormedCut(ms[..n], ms[n..]);
        RepairKeepsGroups(ms[n..], known + CallIds(ms[0]));
      } else {
        assert ms == [ms[0]] + ms[1..];
        RepairKeepsGroups(ms[1..], known);
      }
    }
  }

  /** Whatever it is given, the repair leaves complete groups, and repairing again changes nothing. */
  lemma ValidatedGrouped(ms: History)
    ensures Grouped(Validated(ms))
    ensures Validated(Validated(ms)) == Validated(ms)
  {
    RepairIsGrouped(ms, {});
    RepairIdempotent(ms, {});
  }

  /** The repair reaches full well-formedness exactly when the history held no stray result. */
  lemma ValidatedWellFormedExactly(ms: History)
    ensures WellFormed(Validated(ms)) <==> NoStray(ms, {})
  {
    RepairIsGrouped(ms, {});
    RepairOwnedExactly(ms, {});
  }

  /** When every result answers its own call, the repair makes the history well formed, and it
      changes the history exactly when some call lacks a result. */
  lemma ValidatedWellFormed(ms: History)
    requires Owned(ms)
    ensures WellFormed(Validated(ms))
    ensures Validated(ms) == ms <==> Grouped(ms)
  {
    RepairIsGrouped(ms, {});
    OwnedHasNoStray(ms, {});
    RepairOwnedExactly(ms, {});
    if Grouped(ms) {
      RepairKeepsGroups(ms, {});
    }
  }

  /** A late second result for an answered call is kept behind the next question. */
  lemma LateResultSurvives()
    ensures exists ms :: Validated(ms) == ms && !WellFormed(ms)
  {
    var call := Message(Assistant, "", [ToolCall("a", "function", "f", "")], "", "", true);
    var result := Message(Tool, "done", [], "a", "", false);
    var ms := [call, result, Plain(User, "next"), result];
    assert ms[1..] == [result, Plain(User, "next"), result];
    assert ms[1..][1..] == [Plain(User, "next"), result];
    assert LeadingTools(ms[1..]) == [result];
    assert call.calls[0] in call.calls;
    assert CallIds(call) == {"a"} && result in [result];
    assert Answered(ms);
    assert ms[..2] == [call, result] && ms[2..] == [Plain(User, "next"), result];
    assert ms[2..][1..] == [result] && [result][1..] == [];
    var known := {} + CallIds(call);
    assert Repair([result], known) == [result];
    assert Repair(ms[2..], known) == ms[2..];
    assert Repair(ms, {}) == ms[..2] + ms[2..];
    assert !OwnedFrom([result], {});
    assert ms[1..][1..] == ms[2..];
    var open := OfferedIds(call);
    assert OwnedFrom(ms, {}) ==> OwnedFrom(ms[1..], open);
    assert OwnedFrom(ms[1..], open) ==> OwnedFrom(ms[2..], open);
    assert OwnedFrom(ms[2..], open) ==> OwnedFrom([result], {});
    assert !OwnedFrom(ms, {});
    assert Validated(ms) == ms && !WellFormed(ms);
  }
}
