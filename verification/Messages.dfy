/** The conversation history: role-tagged messages and the grouping providers insist on. */
module Messages {

  datatype Role = System | User | Assistant | Tool | Other(name: string)

  datatype ToolCall = ToolCall(id: string, kind: string, name: string, arguments: string)

  /** `answers` is the tool_call_id of a tool result ("" when absent); `sdk` marks a provider object. */
  datatype Message = Message(
    role: Role, content: string, calls: seq<ToolCall>, answers: string, reasoning: string, sdk: bool)

  type History = seq<Message>

  function Plain(role: Role, content: string): Message {
    Message(role, content, [], "", "", false)
  }

  predicate IsCalling(m: Message) {
    m.role == Assistant && m.calls != []
  }

  /** The ids a provider expects results for; an empty id is never expected. */
  function CallIds(m: Message): set<string> {
    set c | c in m.calls && c.id != "" :: c.id
  }

  /** Every id that is a legal answer to this message. */
  function OfferedIds(m: Message): set<string> {
    set c | c in m.calls :: c.id
  }

  function Answers(results: History): set<string> {
    set m | m in results && m.answers != "" :: m.answers
  }

  function LeadingTools(ms: History): (run: History)
    ensures run <= ms
  {
    if ms != [] && ms[0].role == Tool then [ms[0]] + LeadingTools(ms[1..]) else []
  }

  predicate AllTools(ms: History) {
    forall m | m in ms :: m.role == Tool
  }

  // ----------------------------------------------------------------- grouping

  /** Every tool-calling assistant is directly followed by results for all its ids, where the
      last group may still wait for the ids in `open`. */
  predicate GroupedBut(ms: History, open: set<string>) {
    ms == [] ||
    (&& (IsCalling(ms[0]) ==>
          CallIds(ms[0]) <= Answers(LeadingTools(ms[1..])) + if AllTools(ms[1..]) then open else {})
     && GroupedBut(ms[1..], open))
  }

  predicate Grouped(ms: History) {
    GroupedBut(ms, {})
  }

  /** The ids a tool message may answer after `m`, when `current` was the set before it. */
  function OwnerAfter(current: set<string>, m: Message): set<string> {
    if m.role == Tool then current
    else if IsCalling(m) then OfferedIds(m)
    else {}
  }

  function OwnerAfterAll(current: set<string>, ms: History): set<string>
    decreases |ms|
  {
    if ms == [] then current else OwnerAfterAll(OwnerAfter(current, ms[0]), ms[1..])
  }

  predicate OwnedFrom(ms: History, current: set<string>)
    decreases |ms|
  {
    ms == [] ||
    (&& (ms[0].role == Tool ==> ms[0].answers in current)
     && OwnedFrom(ms[1..], OwnerAfter(current, ms[0])))
  }

  /** Every tool message sits in the run directly behind the assistant whose call it answers. */
  predicate Owned(ms: History) {
    OwnedFrom(ms, {})
  }

  /** What a provider accepts: no call without its results, no result without its call. */
  predicate WellFormed(ms: History) {
    Grouped(ms) && Owned(ms)
  }

  predicate StartsRun(ms: History) {
    ms != [] && ms[0].role == Tool
  }

  // ---------------------------------------------------- reading the definitions

  /** The recursive grouping predicate says what it should about every single position. */
  lemma {:induction false} GroupedAtEveryIndex(ms: History)
    ensures Grouped(ms) <==>
            forall i | 0 <= i < |ms| ::
              IsCalling(ms[i]) ==> CallIds(ms[i]) <= Answers(LeadingTools(ms[i + 1..]))
  {
    if ms != [] {
      GroupedAtEveryIndex(ms[1..]);
      var rest := ms[1..];
      assert forall i | 0 <= i < |rest| :: rest[i] == ms[i + 1] && rest[i + 1..] == ms[i + 2..];
      if Grouped(ms) {
        forall i | 0 <= i < |ms|
          ensures IsCalling(ms[i]) ==> CallIds(ms[i]) <= Answers(LeadingTools(ms[i + 1..]))
        {
          if i > 0 {
            assert rest[i - 1] == ms[i] && rest[i..] == ms[i + 1..];
          }
        }
      } else if CallIds(ms[0]) <= Answers(LeadingTools(ms[1..])) || !IsCalling(ms[0]) {
        var i :| 0 <= i < |rest| && IsCalling(rest[i]) && !(CallIds(rest[i]) <= Answers(LeadingTools(rest[i + 1..])));
        assert ms[i + 1] == rest[i] && ms[i + 2..] == rest[i + 1..];
      } else {
        assert !(CallIds(ms[0]) <= Answers(LeadingTools(ms[0 + 1..])));
      }
    }
  }

  /** An owned tool message is preceded by its assistant with nothing but tool messages between. */
  lemma {:induction false} OwnedAtEveryIndex(ms: History, i: nat)
    requires Owned(ms) && i < |ms| && ms[i].role == Tool
    ensures exists k :: 0 <= k < i && IsCalling(ms[k]) && ms[i].answers in OfferedIds(ms[k]) && AllTools(ms[k + 1..i])
  {
    OwnerWitness(ms, {}, i);
  }

  lemma {:induction false} OwnerWitness(ms: History, current: set<string>, i: nat)
    requires OwnedFrom(ms, current) && i < |ms| && ms[i].role == Tool
    ensures (AllTools(ms[..i]) && ms[i].answers in current) ||
            exists k :: 0 <= k < i && IsCalling(ms[k]) && ms[i].answers in OfferedIds(ms[k]) && AllTools(ms[k + 1..i])
  {
    if i > 0 {
      var rest := ms[1..];
      OwnerWitness(rest, OwnerAfter(current, ms[0]), i - 1);
      if AllTools(rest[..i - 1]) && rest[i - 1].answers in OwnerAfter(current, ms[0]) {
        assert rest[..i - 1] == ms[1..i];
        if ms[0].role == Tool {
          assert ms[..i] == [ms[0]] + ms[1..i];
        } else {
          assert IsCalling(ms[0]) && AllTools(ms[0 + 1..i]);
        }
      } else {
        var k :| 0 <= k < i - 1 && IsCalling(rest[k]) && rest[i - 1].answers in OfferedIds(rest[k])
                 && AllTools(rest[k + 1..i - 1]);
        assert rest[k + 1..i - 1] == ms[k + 2..i] && rest[k] == ms[k + 1];
      }
    }
  }

  // ---------------------------------------------------------- concatenation laws

  lemma {:induction false} LeadingToolsConcat(a: History, b: History)
    ensures LeadingTools(a + b) == if AllTools(a) then a + LeadingTools(b) else LeadingTools(a)
  {
    if a == [] {
      assert a + b == b;
    } else {
      assert (a + b)[1..] == a[1..] + b;
      LeadingToolsConcat(a[1..], b);
      if a[0].role == Tool {
        assert AllTools(a) <==> AllTools(a[1..]) by {
          assert a == [a[0]] + a[1..];
        }
      }
    }
  }

  lemma {:induction false} LeadingToolsOfRun(a: History)
    requires AllTools(a)
    ensures LeadingTools(a) == a
  {
    LeadingToolsConcat(a, []);
    assert a + [] == a;
  }

  lemma {:induction false} GroupedConcat(a: History, b: History, open: set<string>)
    requires Grouped(a) && GroupedBut(b, open)
    ensures GroupedBut(a + b, open)
  {
    if a == [] {
      assert a + b == b;
    } else {
      assert (a + b)[1..] == a[1..] + b;
      GroupedConcat(a[1..], b, open);
      LeadingToolsConcat(a[1..], b);
      if AllTools(a[1..]) {
        LeadingToolsOfRun(a[1..]);
      }
    }
  }

  lemma {:induction false} GroupedSuffix(a: History, b: History, open: set<string>)
    requires GroupedBut(a + b, open)
    ensures GroupedBut(b, open)
  {
    if a == [] {
      assert a + b == b;
    } else {
      assert (a + b)[1..] == a[1..] + b;
      GroupedSuffix(a[1..], b, open);
    }
  }

  /** Cutting in front of anything but a tool result keeps both halves grouped. */
  lemma {:induction false} GroupedPrefix(a: History, b: History)
    requires Grouped(a + b) && !StartsRun(b)
    ensures Grouped(a)
  {
    if a != [] {
      assert (a + b)[1..] == a[1..] + b;
      GroupedPrefix(a[1..], b);
      LeadingToolsConcat(a[1..], b);
      if AllTools(a[1..]) {
        LeadingToolsOfRun(a[1..]);
      }
    }
  }

  lemma {:induction false} GroupedMore(ms: History, open: set<string>, more: set<string>)
    requires GroupedBut(ms, open) && open <= more
    ensures GroupedBut(ms, more)
  {
    if ms != [] {
      GroupedMore(ms[1..], open, more);
    }
  }

  /** Appending one tool result closes its id. */
  lemma {:induction false} GroupedAppendResult(ms: History, open: set<string>, t: Message)
    requires GroupedBut(ms, open) && t.role == Tool
    ensures GroupedBut(ms + [t], open - {t.answers})
  {
    if ms == [] {
      assert [t][1..] == [];
    } else {
      assert (ms + [t])[1..] == ms[1..] + [t];
      GroupedAppendResult(ms[1..], open, t);
      LeadingToolsConcat(ms[1..], [t]);
      if AllTools(ms[1..]) {
        LeadingToolsOfRun(ms[1..]);
        assert LeadingTools([t]) == [t] by { assert [t][1..] == []; }
        assert LeadingTools(ms[1..] + [t]) == ms[1..] + [t];
        if IsCalling(ms[0]) {
          forall id | id in CallIds(ms[0]) && id !in open - {t.answers}
            ensures id in Answers(ms[1..] + [t])
          {
            if id in open {
              assert t in ms[1..] + [t];
            } else {
              assert id in Answers(ms[1..]);
            }
          }
        }
      } else {
        assert !AllTools(ms[1..] + [t]) by {
          var m :| m in ms[1..] && m.role != Tool;
          assert m in ms[1..] + [t];
        }
      }
    }
  }

  lemma {:induction false} OwnedConcat(a: History, b: History, current: set<string>)
    ensures OwnedFrom(a + b, current) <==> OwnedFrom(a, current) && OwnedFrom(b, OwnerAfterAll(current, a))
    ensures OwnerAfterAll(current, a + b) == OwnerAfterAll(OwnerAfterAll(current, a), b)
  {
    if a == [] {
      assert a + b == b;
    } else {
      assert (a + b)[1..] == a[1..] + b;
      OwnedConcat(a[1..], b, OwnerAfter(current, a[0]));
    }
  }

  /** What stands before a message that is no tool result does not matter to it. */
  lemma OwnedFresh(ms: History, c1: set<string>, c2: set<string>)
    requires !StartsRun(ms)
    ensures OwnedFrom(ms, c1) <==> OwnedFrom(ms, c2)
    ensures ms != [] ==> OwnerAfterAll(c1, ms) == OwnerAfterAll(c2, ms)
  {
  }

  /** Two well-formed pieces stay well formed when glued. */
  lemma WellFormedConcat(a: History, b: History)
    requires WellFormed(a) && WellFormed(b)
    ensures WellFormed(a + b)
  {
    GroupedConcat(a, b, {});
    OwnedConcat(a, b, {});
    OwnedHasNoOrphanStart(b);
    OwnedFresh(b, {}, OwnerAfterAll({}, a));
  }

  lemma OwnedHasNoOrphanStart(ms: History)
    requires Owned(ms)
    ensures !StartsRun(ms)
  {
  }

  /** A cut in front of anything but a tool result leaves two well-formed pieces. */
  lemma WellFormedCut(a: History, b: History)
    requires WellFormed(a + b) && !StartsRun(b)
    ensures WellFormed(a) && WellFormed(b)
  {
    GroupedPrefix(a, b);
    GroupedSuffix(a, b, {});
    OwnedConcat(a, b, {});
    OwnedFresh(b, {}, OwnerAfterAll({}, a));
  }

  lemma OwnedCut(a: History, b: History)
    requires Owned(a + b) && !StartsRun(b)
    ensures Owned(a) && Owned(b)
  {
    OwnedConcat(a, b, {});
    OwnedFresh(b, {}, OwnerAfterAll({}, a));
  }

  lemma SingleWellFormed(m: Message)
    requires m.role != Tool && !IsCalling(m)
    ensures WellFormed([m])
  {
    assert [m][1..] == [];
  }

  lemma {:induction false} CallFreeWellFormed(ms: History)
    requires forall m | m in ms :: m.role != Tool && !IsCalling(m)
    ensures WellFormed(ms)
  {
    if ms != [] {
      CallFreeWellFormed(ms[1..]);
      SingleWellFormed(ms[0]);
      WellFormedConcat([ms[0]], ms[1..]);
      assert [ms[0]] + ms[1..] == ms;
    }
  }

  /** Messages that agree on role, calls and answered id are grouped alike. */
  ghost predicate SameSkeleton(a: History, b: History) {
    |a| == |b| && forall i | 0 <= i < |a| ::
      a[i].role == b[i].role && a[i].calls == b[i].calls && a[i].answers == b[i].answers
  }

  lemma AnswersSkeleton(a: History, b: History)
    requires SameSkeleton(a, b)
    ensures Answers(a) <= Answers(b)
  {
    forall id | id in Answers(a)
      ensures id in Answers(b)
    {
      var i :| 0 <= i < |a| && a[i].answers == id;
      assert b[i] in b && b[i].answers == id;
    }
  }

  lemma {:induction false} LeadingToolsSkeleton(a: History, b: History)
    requires SameSkeleton(a, b)
    ensures SameSkeleton(LeadingTools(a), LeadingTools(b))
  {
    if a != [] {
      LeadingToolsSkeleton(a[1..], b[1..]);
    }
  }

  lemma {:induction false} SkeletonDecides(a: History, b: History, open: set<string>, current: set<string>)
    requires SameSkeleton(a, b)
    ensures GroupedBut(a, open) <==> GroupedBut(b, open)
    ensures OwnedFrom(a, current) <==> OwnedFrom(b, current)
    ensures OwnerAfterAll(current, a) == OwnerAfterAll(current, b)
  {
    if a != [] {
      SkeletonDecides(a[1..], b[1..], open, OwnerAfter(current, a[0]));
      var ra, rb := LeadingTools(a[1..]), LeadingTools(b[1..]);
      LeadingToolsSkeleton(a[1..], b[1..]);
      AnswersSkeleton(ra, rb);
      AnswersSkeleton(rb, ra);
      assert AllTools(a[1..]) <==> AllTools(b[1..]);
    }
  }

  // ------------------------------------------------------------ the newest group

  /** The tool results at the very end. */
  function TrailingTools(ms: History): (run: History)
    ensures |run| <= |ms| && run == ms[|ms| - |run|..]
    ensures AllTools(run)
    ensures |run| == |ms| || ms[|ms| - |run| - 1].role != Tool
  {
    if ms == [] || ms[|ms| - 1].role != Tool then [] else TrailingTools(ms[..|ms| - 1]) + [ms[|ms| - 1]]
  }

  lemma {:induction false} RunIsGrouped(run: History)
    requires AllTools(run)
    ensures Grouped(run)
  {
    if run != [] {
      RunIsGrouped(run[1..]);
    }
  }

  lemma {:induction false} OwnedRun(run: History, current: set<string>)
    requires AllTools(run)
    ensures OwnedFrom(run, current) <==> forall t | t in run :: t.answers in current
    ensures OwnerAfterAll(current, run) == current
  {
    if run != [] {
      assert run == [run[0]] + run[1..];
      OwnedRun(run[1..], current);
    }
  }

  /** Once its newest group is complete, nothing in front of that group is open. */
  lemma {:induction false} CloseBehind(front: History, rest: History, open: set<string>)
    requires GroupedBut(front + rest, open) && Grouped(rest) && rest != [] && rest[0].role != Tool
    ensures Grouped(front + rest)
  {
    if front == [] {
      assert front + rest == rest;
    } else {
      assert (front + rest)[1..] == front[1..] + rest;
      CloseBehind(front[1..], rest, open);
      assert (front[1..] + rest)[|front| - 1] == rest[0];
    }
  }

  lemma NewestGroup(pre: History, a: Message, run: History, open: set<string>)
    requires IsCalling(a) && AllTools(run) && open <= OfferedIds(a) && "" !in open
    requires GroupedBut(pre + ([a] + run), open)
    ensures Grouped(pre + ([a] + run)) <==> open <= Answers(run)
  {
    var group := [a] + run;
    assert group[1..] == run;
    LeadingToolsOfRun(run);
    RunIsGrouped(run);
    GroupedSuffix(pre, group, open);
    assert open <= CallIds(a);
    if open <= Answers(run) {
      CloseBehind(pre, group, open);
    }
    if Grouped(pre + group) {
      GroupedSuffix(pre, group, {});
    }
  }

  /** The ids a result may still answer belong to the message the run at the end follows. */
  lemma OfferedByHead(front: History, run: History, id: string)
    requires AllTools(run) && id in OwnerAfterAll({}, front + run) && (front == [] || front[|front| - 1].role != Tool)
    ensures front != [] && IsCalling(front[|front| - 1]) && id in OfferedIds(front[|front| - 1])
  {
    OwnedConcat(front, run, {});
    OwnedRun(run, OwnerAfterAll({}, front));
    if front != [] {
      var a, pre := front[|front| - 1], front[..|front| - 1];
      assert front == pre + [a] && [a][1..] == [];
      OwnedConcat(pre, [a], {});
      assert OwnerAfterAll(OwnerAfterAll({}, pre), [a]) == OwnerAfter(OwnerAfterAll({}, pre), a);
    }
  }

  lemma ClosedFor(front: History, run: History, open: set<string>)
    requires AllTools(run) && (front == [] || front[|front| - 1].role != Tool)
    requires GroupedBut(front + run, open) && open <= OwnerAfterAll({}, front + run) && "" !in open && open != {}
    ensures Grouped(front + run) <==> open <= Answers(run)
  {
    var some :| some in open;
    OfferedByHead(front, run, some);
    var pre, a := front[..|front| - 1], front[|front| - 1];
    forall id | id in open ensures id in OfferedIds(a) { OfferedByHead(front, run, id); }
    Regroup(pre, a, run);
    assert front == pre + [a];
    NewestGroup(pre, a, run, open);
  }

  lemma Regroup(pre: History, a: Message, run: History)
    ensures (pre + [a]) + run == pre + ([a] + run)
  {
  }

  /** A history that is grouped but for ids its newest calling assistant offers is grouped altogether
      exactly when the results at its end answer them. */
  lemma ClosedExactly(ms: History, open: set<string>)
    requires GroupedBut(ms, open) && open <= OwnerAfterAll({}, ms) && "" !in open
    ensures Grouped(ms) <==> open <= Answers(TrailingTools(ms))
  {
    if open != {} {
      var run := TrailingTools(ms);
      var front := ms[..|ms| - |run|];
      assert ms == front + run;
      ClosedFor(front, run, open);
    }
  }
}
