/** The bot controller: cycles of model and tool calls over a conversation cut to thirty messages. */
module BotConversation {
  import opened Messages

  const MAX_MESSAGES := 30
  const MAX_LOOPS := 10

  /** What one model call comes to, with the results its tools would give. */
  datatype Turn = Fails | Says(content: string) | Calls(content: string, calls: seq<ToolCall>, results: seq<string>)

  /** A cycle's surroundings: what stands in front of the conversation, the user messages behind it (the
      chat log, if there is one, and the prompt) and what the model will do. The stop flags are read at
      numbered moments: the cycle's own flag reads true from moment `stop` on, the controller's from
      `halt` on. */
  datatype Cycle = Cycle(preamble: History, asks: History, turns: seq<Turn>, stop: nat, halt: nat)

  function At(turns: seq<Turn>, k: nat): Turn {
    if k < |turns| then turns[k] else Fails
  }

  function Said(content: string, calls: seq<ToolCall>): Message {
    Message(Assistant, content, calls, "", "", true)
  }

  function ResultOf(calls: seq<ToolCall>, results: seq<string>, i: nat): Message
    requires i < |calls|
  {
    Message(Tool, if i < |results| then results[i] else "", [], calls[i].id, "", false)
  }

  function Results(calls: seq<ToolCall>, results: seq<string>, n: nat): (r: History)
    requires n <= |calls|
    ensures |r| == n
  {
    seq(n, i requires 0 <= i < n => ResultOf(calls, results, i))
  }

  /** How many of `n` tool calls run when the flag is read before each of them. */
  function Executed(n: nat, moment: nat, stop: nat): (done: nat)
    ensures done <= n
  {
    if moment >= stop then 0 else if stop - moment < n then stop - moment else n
  }

  // ------------------------------------------------------------------ specification

  /** The messages a cycle appends from loop `k` on, and the moment it is over. */
  function Play(c: Cycle, k: nat, moment: nat): (History, nat)
    decreases MAX_LOOPS - k
  {
    if k >= MAX_LOOPS then ([], moment)
    else if moment >= c.stop || moment >= c.halt then ([], moment + 1)
    else
      match At(c.turns, k)
      case Fails => ([], moment + 1)
      case Says(content) => ([Said(content, [])], moment + 1)
      case Calls(content, calls, results) =>
        var done := Executed(|calls|, moment + 1, c.stop);
        var (rest, over) := Play(c, k + 1, AfterTools(|calls|, moment + 1, c.stop));
        ([Said(content, calls)] + Results(calls, results, done) + rest, over)
  }

  /** The reading that cuts the tools short is a moment too. */
  function AfterTools(n: nat, moment: nat, stop: nat): nat {
    var done := Executed(n, moment, stop);
    if done < n then moment + done + 1 else moment + n
  }

  predicate IsAUser(m: Message) {
    m.role == User
  }

  predicate IsNoTool(m: Message) {
    m.role != Tool
  }

  function First(p: Message -> bool, s: History, i: nat): (j: nat)
    requires i <= |s|
    ensures i <= j <= |s| && (j < |s| ==> p(s[j])) && forall k | i <= k < j :: !p(s[k])
    decreases |s| - i
  {
    if i == |s| || p(s[i]) then i else First(p, s, i + 1)
  }

  function Trimmed(s: History): History {
    if |s| <= MAX_MESSAGES then s
    else
      var t := s[|s| - MAX_MESSAGES..];
      if First(IsAUser, t, 0) < |t| then t[First(IsAUser, t, 0)..]
      else if First(IsNoTool, t, 0) < |t| then t[First(IsNoTool, t, 0)..]
      else t
  }

  /** What a cycle leaves: its messages are kept unless it was stopped by the last reading. */
  function AfterCycle(s: History, c: Cycle): History {
    var (added, over) := Play(c, 0, 0);
    Trimmed(if added != [] && over < c.stop then s + added else s)
  }

  function AfterCycles(s: History, cycles: seq<Cycle>): History
    decreases |cycles|
  {
    if cycles == [] then s else AfterCycles(AfterCycle(s, cycles[0]), cycles[1..])
  }

  // ------------------------------------------------------------------ the controller

  class Controller {
    var conversation: History

    constructor ()
      ensures conversation == []
    {
      conversation := [];
    }

    method CallWithTools(messages: History, c: Cycle) returns (after: History, moment: nat)
      ensures after == messages + Play(c, 0, 0).0 && moment == Play(c, 0, 0).1
    {
      after, moment := messages, 0;
      var k, more := 0, true;
      while k < MAX_LOOPS && more
        invariant 0 <= k <= MAX_LOOPS
        invariant more ==> after + Play(c, k, moment).0 == messages + Play(c, 0, 0).0
        invariant more ==> Play(c, k, moment).1 == Play(c, 0, 0).1
        invariant !more ==> after == messages + Play(c, 0, 0).0 && moment == Play(c, 0, 0).1
        decreases MAX_LOOPS - k, more
      {
        after, moment, more := OneLoop(after, c, k, moment);
        k := k + 1;
      }
      assert more ==> Play(c, k, moment) == ([], moment);
    }

    method OneLoop(messages: History, c: Cycle, k: nat, start: nat) returns (after: History, moment: nat, more: bool)
      requires k < MAX_LOOPS
      ensures more ==> after + Play(c, k + 1, moment).0 == messages + Play(c, k, start).0
      ensures more ==> Play(c, k + 1, moment).1 == Play(c, k, start).1
      ensures !more ==> after == messages + Play(c, k, start).0 && moment == Play(c, k, start).1
    {
      after, moment, more := messages, start + 1, false;
      if start >= c.stop || start >= c.halt {
        return;
      }
      match At(c.turns, k)
      case Fails =>
      case Says(content) =>
        after := after + [Said(content, [])];
      case Calls(content, calls, results) =>
        after := after + [Said(content, calls)];
        after, moment := RunTools(after, calls, results, moment, c.stop);
        more := true;
    }

    method RunTools(messages: History, calls: seq<ToolCall>, results: seq<string>, start: nat, stop: nat)
      returns (after: History, moment: nat)
      ensures after == messages + Results(calls, results, Executed(|calls|, start, stop))
      ensures moment == AfterTools(|calls|, start, stop)
    {
      after, moment := messages, start;
      var i := 0;
      while i < |calls|
        invariant 0 <= i <= |calls| && moment == start + i
        invariant i == Executed(i, start, stop)
        invariant after == messages + Results(calls, results, i)
      {
        if moment >= stop {
          moment := moment + 1;
          return;
        }
        moment := moment + 1;
        after := after + [ResultOf(calls, results, i)];
        i := i + 1;
      }
    }

    method Trim()
      modifies this
      ensures conversation == Trimmed(old(conversation))
    {
      if |conversation| <= MAX_MESSAGES {
        return;
      }
      var t := conversation[|conversation| - MAX_MESSAGES..];
      var i := 0;
      while i < |t|
        invariant 0 <= i <= |t| && conversation == old(conversation)
        invariant First(IsAUser, t, 0) == First(IsAUser, t, i)
      {
        if t[i].role == User {
          conversation := t[i..];
          return;
        }
        i := i + 1;
      }
      i := 0;
      while i < |t|
        invariant 0 <= i <= |t| && conversation == old(conversation)
        invariant First(IsNoTool, t, 0) == First(IsNoTool, t, i)
      {
        if t[i].role != Tool {
          conversation := t[i..];
          return;
        }
        i := i + 1;
      }
      conversation := t;
    }

    method OneCycle(c: Cycle)
      modifies this
      ensures conversation == AfterCycle(old(conversation), c)
    {
      var messages := c.preamble + conversation + c.asks;
      var after, moment := CallWithTools(messages, c);
      var added := after[|messages|..];
      assert added == Play(c, 0, 0).0;
      if added != [] && moment < c.stop {
        conversation := conversation + added;
      }
      Trim();
    }
  }

  // --------------------------------------------------------------- complete blocks

  predicate IsResultOf(m: Message, call: ToolCall) {
    m.role == Tool && m.answers == call.id
  }

  /** From `i` on: assistant messages, each followed by exactly its own results in order. */
  predicate BlocksFrom(s: History, i: nat)
    requires i <= |s|
    decreases |s| - i
  {
    i == |s| ||
    (&& s[i].role == Assistant
     && i + 1 + |s[i].calls| <= |s|
     && (forall k | 0 <= k < |s[i].calls| :: IsResultOf(s[i + 1 + k], s[i].calls[k]))
     && BlocksFrom(s, i + 1 + |s[i].calls|))
  }

  predicate Blocks(s: History) {
    BlocksFrom(s, 0)
  }

  lemma {:induction false} BlocksShift(a: History, b: History, i: nat)
    requires i <= |b|
    ensures BlocksFrom(a + b, |a| + i) <==> BlocksFrom(b, i)
    decreases |b| - i
  {
    if i < |b| && i + 1 + |b[i].calls| <= |b| {
      BlocksShift(a, b, i + 1 + |b[i].calls|);
      assert (a + b)[|a| + i] == b[i];
      assert forall k | i < k < |b| :: (a + b)[|a| + k] == b[k];
    }
  }

  lemma {:induction false} BlocksConcatFrom(a: History, b: History, i: nat)
    requires i <= |a| && BlocksFrom(a, i) && Blocks(b)
    ensures BlocksFrom(a + b, i)
    decreases |a| - i
  {
    if i == |a| {
      BlocksShift(a, b, 0);
    } else {
      BlocksConcatFrom(a, b, i + 1 + |a[i].calls|);
    }
  }

  lemma SuffixBlocks(s: History, j: nat)
    requires j <= |s|
    ensures Blocks(s[j..]) <==> BlocksFrom(s, j)
  {
    BlocksShift(s[..j], s[j..], 0);
    assert s[..j] + s[j..] == s;
  }

  /** In complete blocks a cut keeps blocks complete exactly when it does not fall on a tool result. */
  lemma {:induction false} CutBlocks(s: History, i: nat, j: nat)
    requires i <= j < |s| && BlocksFrom(s, i)
    ensures BlocksFrom(s, j) <==> s[j].role != Tool
    decreases |s| - i
  {
    var next := i + 1 + |s[i].calls|;
    if j >= next {
      CutBlocks(s, next, j);
    } else if j > i {
      assert IsResultOf(s[i + 1 + (j - i - 1)], s[i].calls[j - i - 1]);
    }
  }

  lemma {:induction false} BlocksHaveNoUser(s: History, i: nat, j: nat)
    requires i <= j < |s| && BlocksFrom(s, i)
    ensures s[j].role == Assistant || s[j].role == Tool
    decreases |s| - i
  {
    var next := i + 1 + |s[i].calls|;
    if j >= next {
      BlocksHaveNoUser(s, next, j);
    } else if j > i {
      assert IsResultOf(s[i + 1 + (j - i - 1)], s[i].calls[j - i - 1]);
    }
  }

  /** Complete blocks are what a provider accepts. */
  lemma {:induction false} BlocksWellFormed(s: History, i: nat)
    requires i <= |s| && BlocksFrom(s, i)
    ensures WellFormed(s[i..])
    decreases |s| - i
  {
    if i < |s| {
      var next := i + 1 + |s[i].calls|;
      BlockWellFormed(s[i], s[i + 1..next]);
      BlocksWellFormed(s, next);
      WellFormedConcat([s[i]] + s[i + 1..next], s[next..]);
      assert [s[i]] + s[i + 1..next] + s[next..] == s[i..];
    }
  }

  lemma BlockWellFormed(head: Message, run: History)
    requires head.role == Assistant && |run| == |head.calls|
    requires forall k | 0 <= k < |run| :: IsResultOf(run[k], head.calls[k])
    ensures WellFormed([head] + run)
  {
    LeadingToolsOfRun(run);
    assert ([head] + run)[1..] == run;
    if IsCalling(head) {
      forall id | id in CallIds(head)
        ensures id in Answers(run)
      {
        var k :| 0 <= k < |run| && head.calls[k].id == id;
        assert run[k] in run && run[k].answers == id;
      }
      OwnedRun(run, OfferedIds(head));
      RunIsGrouped(run);
    } else {
      assert run == [];
      SingleWellFormed(head);
      assert [head] + run == [head];
    }
  }

  // -------------------------------------------------------------------- the cycles

  lemma {:induction false} PlayTakesTime(c: Cycle, k: nat, moment: nat)
    ensures Play(c, k, moment).1 >= moment
    decreases MAX_LOOPS - k
  {
    if k < MAX_LOOPS && moment < c.stop && moment < c.halt && At(c.turns, k).Calls? {
      PlayTakesTime(c, k + 1, AfterTools(|At(c.turns, k).calls|, moment + 1, c.stop));
    }
  }

  lemma ResultsAreABlock(content: string, calls: seq<ToolCall>, results: seq<string>)
    ensures Blocks([Said(content, calls)] + Results(calls, results, |calls|))
  {
    var s := [Said(content, calls)] + Results(calls, results, |calls|);
    assert forall k | 0 <= k < |calls| :: IsResultOf(s[1 + k], calls[k]);
    assert BlocksFrom(s, 1 + |calls|);
  }

  /** A cycle that was not stopped appends complete blocks only. */
  lemma {:induction false} PlayGivesBlocks(c: Cycle, k: nat, moment: nat)
    requires Play(c, k, moment).1 < c.stop
    ensures Blocks(Play(c, k, moment).0)
    decreases MAX_LOOPS - k
  {
    if k < MAX_LOOPS && moment < c.stop && moment < c.halt {
      match At(c.turns, k)
      case Fails =>
      case Says(content) => ResultsAreABlock(content, [], []);
        assert [Said(content, [])] + Results([], [], 0) == [Said(content, [])];
      case Calls(content, calls, results) =>
        var next := AfterTools(|calls|, moment + 1, c.stop);
        PlayTakesTime(c, k + 1, next);
        PlayGivesBlocks(c, k + 1, next);
        ResultsAreABlock(content, calls, results);
        BlocksConcatFrom([Said(content, calls)] + Results(calls, results, |calls|), Play(c, k + 1, next).0, 0);
    }
  }

  /** Where the kept part begins: at the first of the last thirty messages that is no tool result. */
  lemma TrimShape(s: History) returns (j: nat)
    requires Blocks(s) && |s| > MAX_MESSAGES
    ensures |s| - MAX_MESSAGES <= j < |s| && Trimmed(s) == s[j..]
    ensures forall k | |s| - MAX_MESSAGES <= k < j :: s[k].role == Tool
    ensures s[j].role == Tool ==> j == |s| - MAX_MESSAGES && forall k | j <= k < |s| :: s[k].role == Tool
  {
    var base := |s| - MAX_MESSAGES;
    var t := s[base..];
    NoUserAtTheEnd(s, base, t);
    var i := First(IsNoTool, t, 0);
    j := if i < |t| then base + i else base;
    TrimTail(s, t, i);
    TailCut(s, base, j - base);
    SameAsTail(s, base, t, i);
  }

  lemma TrimTail(s: History, t: History, i: nat)
    requires |s| > MAX_MESSAGES && t == s[|s| - MAX_MESSAGES..]
    requires First(IsAUser, t, 0) == |t| && i == First(IsNoTool, t, 0)
    ensures Trimmed(s) == t[if i < |t| then i else 0..]
  {
  }

  lemma TailCut(s: History, base: nat, i: nat)
    requires base + i <= |s|
    ensures s[base..][i..] == s[base + i..]
  {
  }

  /** The messages in front of the first that is no tool result are tool results. */
  lemma SameAsTail(s: History, base: nat, t: History, i: nat)
    requires base <= |s| && t == s[base..] && i == First(IsNoTool, t, 0)
    ensures forall k | base <= k < base + i :: s[k].role == Tool
    ensures i < |t| ==> s[base + i].role != Tool
  {
    forall k | base <= k < base + i
      ensures s[k].role == Tool
    {
      assert !IsNoTool(t[k - base]);
    }
  }

  lemma NoUserAtTheEnd(s: History, base: nat, t: History)
    requires Blocks(s) && base <= |s| && t == s[base..]
    ensures First(IsAUser, t, 0) == |t|
  {
    var u := First(IsAUser, t, 0);
    if u < |t| {
      BlocksHaveNoUser(s, 0, base + u);
    }
  }

  ghost predicate NearNoTool(s: History) {
    exists k | 0 <= k < |s| && |s| - MAX_MESSAGES <= k :: s[k].role != Tool
  }

  /** Trimming complete blocks leaves complete blocks exactly when the last thirty messages are not
      all tool results. */
  lemma TrimKeepsBlocksExactly(s: History)
    requires Blocks(s)
    ensures |Trimmed(s)| <= MAX_MESSAGES
    ensures Blocks(Trimmed(s)) <==> |s| <= MAX_MESSAGES || NearNoTool(s)
  {
    if |s| > MAX_MESSAGES {
      var j := TrimShape(s);
      CutBlocks(s, 0, j);
      SuffixBlocks(s, j);
    }
  }

  /** And then it is the longest such end of the conversation that fits. */
  lemma TrimIsLongest(s: History, from: nat)
    requires Blocks(s) && Blocks(Trimmed(s))
    requires from <= |s| && |s| - from <= MAX_MESSAGES && Blocks(s[from..])
    ensures |s| - from <= |Trimmed(s)| <= |s| && Trimmed(s) == s[|s| - |Trimmed(s)|..]
  {
    if |s| > MAX_MESSAGES {
      var j := TrimShape(s);
      SuffixBlocks(s, from);
      SuffixBlocks(s, j);
      CutBlocks(s, 0, j);
      if from < |s| {
        CutBlocks(s, 0, from);
      }
    } else {
      assert s[0..] == s;
    }
  }

  predicate FewCalls(s: History) {
    forall m | m in s :: |m.calls| < MAX_MESSAGES
  }

  predicate Modest(c: Cycle) {
    forall turn | turn in c.turns && turn.Calls? :: |turn.calls| < MAX_MESSAGES
  }

  lemma {:induction false} PlayHasFewCalls(c: Cycle, k: nat, moment: nat)
    requires Modest(c)
    ensures FewCalls(Play(c, k, moment).0)
    decreases MAX_LOOPS - k
  {
    if k < MAX_LOOPS && moment < c.stop && moment < c.halt && At(c.turns, k).Calls? {
      assert At(c.turns, k) in c.turns;
      PlayHasFewCalls(c, k + 1, AfterTools(|At(c.turns, k).calls|, moment + 1, c.stop));
    }
  }

  /** The last block begins within the last thirty messages. */
  lemma {:induction false} LastBlockIsNear(s: History, i: nat)
    requires i < |s| && BlocksFrom(s, i) && FewCalls(s)
    ensures exists j :: i <= j < |s| && |s| - j <= MAX_MESSAGES && s[j].role == Assistant
    decreases |s| - i
  {
    var next := i + 1 + |s[i].calls|;
    if next < |s| {
      LastBlockIsNear(s, next);
    } else {
      assert s[i] in s;
    }
  }

  ghost predicate Kept(s: History) {
    Blocks(s) && FewCalls(s) && |s| <= MAX_MESSAGES
  }

  lemma CycleKeeps(s: History, c: Cycle)
    requires Kept(s) && Modest(c)
    ensures Kept(AfterCycle(s, c))
  {
    var (added, over) := Play(c, 0, 0);
    if added != [] && over < c.stop {
      PlayGivesBlocks(c, 0, 0);
      PlayHasFewCalls(c, 0, 0);
      BlocksConcatFrom(s, added, 0);
      var all := s + added;
      TrimKeepsFew(all);
    }
  }

  lemma TrimKeepsFew(s: History)
    requires Blocks(s) && FewCalls(s)
    ensures Kept(Trimmed(s))
  {
    TrimKeepsBlocksExactly(s);
    if |s| > MAX_MESSAGES {
      LastBlockIsNear(s, 0);
      var j := TrimShape(s);
    }
  }

  /** Over every run of cycles, stopped ones included: at most thirty messages, in complete blocks,
      fit to be sent, as long as no turn calls thirty tools or more. */
  lemma {:induction false} CyclesKeepBlocks(s: History, cycles: seq<Cycle>)
    requires Kept(s) && forall c | c in cycles :: Modest(c)
    ensures var t := AfterCycles(s, cycles);
            |t| <= MAX_MESSAGES && Blocks(t) && WellFormed(t) && FewCalls(t)
    decreases |cycles|
  {
    if cycles == [] {
      BlocksWellFormed(s, 0);
      assert s[0..] == s;
    } else {
      CycleKeeps(s, cycles[0]);
      CyclesKeepBlocks(AfterCycle(s, cycles[0]), cycles[1..]);
    }
  }

  /** The bound needs no such condition. */
  lemma {:induction false} CyclesStayBounded(s: History, cycles: seq<Cycle>)
    requires |s| <= MAX_MESSAGES
    ensures |AfterCycles(s, cycles)| <= MAX_MESSAGES
    decreases |cycles|
  {
    if cycles != [] {
      CyclesStayBounded(AfterCycle(s, cycles[0]), cycles[1..]);
    }
  }

  /** One turn of thirty calls is enough to leave tool results without their call. */
  lemma ThirtyCallsBreakBlocks(content: string, calls: seq<ToolCall>, results: seq<string>)
    requires |calls| >= MAX_MESSAGES
    ensures var t := Trimmed([Said(content, calls)] + Results(calls, results, |calls|));
            |t| == MAX_MESSAGES && AllTools(t) && !WellFormed(t)
  {
    var s := [Said(content, calls)] + Results(calls, results, |calls|);
    assert forall k | 0 < k < |s| :: s[k].role == Tool;
    ResultsAreABlock(content, calls, results);
    var j := TrimShape(s);
  }

  // ------------------------------------------------------------------ what is sent

  /** Behind preamble, conversation and prompt: what each model call of a cycle carries. */
  function Sent(c: Cycle, k: nat, moment: nat, soFar: History): seq<History>
    decreases MAX_LOOPS - k
  {
    if k >= MAX_LOOPS || moment >= c.stop || moment >= c.halt then []
    else
      match At(c.turns, k)
      case Fails => [soFar]
      case Says(_) => [soFar]
      case Calls(content, calls, results) =>
        var done := Executed(|calls|, moment + 1, c.stop);
        [soFar] + Sent(c, k + 1, AfterTools(|calls|, moment + 1, c.stop),
                       soFar + ([Said(content, calls)] + Results(calls, results, done)))
  }

  lemma {:induction false} SentAreBlocks(c: Cycle, k: nat, moment: nat, soFar: History)
    requires Blocks(soFar)
    ensures forall h | h in Sent(c, k, moment, soFar) :: Blocks(h)
    decreases MAX_LOOPS - k
  {
    if k < MAX_LOOPS && moment < c.stop && moment < c.halt && At(c.turns, k).Calls? {
      var turn := At(c.turns, k);
      var next := AfterTools(|turn.calls|, moment + 1, c.stop);
      if next < c.stop {
        var block := [Said(turn.content, turn.calls)] + Results(turn.calls, turn.results, |turn.calls|);
        ResultsAreABlock(turn.content, turn.calls, turn.results);
        BlocksConcatFrom(soFar, block, 0);
        SentAreBlocks(c, k + 1, next, soFar + block);
      }
    }
  }

  /** No model call of the controller ever carries a tool call without its results, or the reverse. */
  lemma RequestsWellFormed(s: History, c: Cycle, h: History)
    requires Kept(s) && h in Sent(c, 0, 0, [])
    requires forall m | m in c.preamble + c.asks :: m.role == System || m.role == User
    ensures WellFormed(c.preamble + s + c.asks + h)
  {
    SentAreBlocks(c, 0, 0, []);
    CallFreeWellFormed(c.preamble);
    CallFreeWellFormed(c.asks);
    BlocksWellFormed(s, 0);
    BlocksWellFormed(h, 0);
    assert s[0..] == s && h[0..] == h;
    WellFormedConcat(c.preamble, s);
    WellFormedConcat(c.preamble + s, c.asks);
    WellFormedConcat(c.preamble + s + c.asks, h);
  }
}
