/** What the bot controller remembers of its cycles, and what a cycle says. */
module BotMemory {
  import opened Messages
  import opened BotConversation

  // ------------------------------------------------------------------ what is cut away

  /** The first of the messages from `base` on that p holds of. */
  predicate FirstFrom(s: History, base: nat, j: nat, p: Message -> bool) {
    base <= j < |s| && p(s[j]) && forall k | base <= k < j :: !p(s[k])
  }

  predicate NoneFrom(s: History, base: nat, p: Message -> bool) {
    forall k | base <= k < |s| :: !p(s[k])
  }

  /** Where the thirty newest messages are cut: in front of their first user message or, without one, in
      front of the first that is no tool result. */
  predicate CutPlace(s: History, j: nat) {
    if |s| <= 30 then j == 0
    else
      var base := |s| - 30;
      if NoneFrom(s, base, IsAUser) then
        if NoneFrom(s, base, IsNoTool) then j == base else FirstFrom(s, base, j, IsNoTool)
      else FirstFrom(s, base, j, IsAUser)
  }

  lemma FirstOfTail(s: History, base: nat, p: Message -> bool)
    requires base <= |s|
    ensures var i := First(p, s[base..], 0);
            if i < |s| - base then FirstFrom(s, base, base + i, p) else NoneFrom(s, base, p)
  {
    var t := s[base..];
    var i := First(p, t, 0);
    forall k | base <= k < base + i ensures !p(s[k]) { assert !p(t[k - base]); }
  }

  lemma TrimOf(s: History, t: History, user: nat, other: nat)
    requires |s| > MAX_MESSAGES && t == s[|s| - MAX_MESSAGES..]
    requires user == First(IsAUser, t, 0) && other == First(IsNoTool, t, 0)
    ensures user <= |t| && other <= |t|
    ensures Trimmed(s) == if user < |t| then t[user..] else if other < |t| then t[other..] else t
  {
  }

  lemma OnePlace(s: History, i: nat, j: nat)
    requires CutPlace(s, i) && CutPlace(s, j)
    ensures i == j <= |s|
  {
  }

  /** What is left of a history behind its one such place. */
  ghost predicate CutTo(s: History, r: History) {
    |r| <= |s| && CutPlace(s, |s| - |r|) && r == s[|s| - |r|..]
  }

  lemma TailIsCut(s: History, t: History, user: nat, other: nat, r: History)
    requires |s| > 30 && t == s[|s| - 30..] && user <= 30 && other <= 30
    requires if user < 30 then FirstFrom(s, |s| - 30, |s| - 30 + user, IsAUser) else NoneFrom(s, |s| - 30, IsAUser)
    requires if other < 30 then FirstFrom(s, |s| - 30, |s| - 30 + other, IsNoTool) else NoneFrom(s, |s| - 30, IsNoTool)
    requires r == if user < |t| then t[user..] else if other < |t| then t[other..] else t
    ensures CutTo(s, r)
  {
    var k := if user < 30 then user else if other < 30 then other else 0;
    assert r == t[k..];
    TailCut(s, |s| - 30, k);
  }

  /** Every history has exactly one such place, and trimming cuts there. */
  lemma TrimCutsThere(s: History)
    ensures CutTo(s, Trimmed(s))
  {
    if |s| <= 30 {
      assert CutPlace(s, 0) && Trimmed(s) == s[0..];
    } else {
      var t := s[|s| - 30..];
      var user, other := First(IsAUser, t, 0), First(IsNoTool, t, 0);
      TrimOf(s, t, user, other);
      FirstOfTail(s, |s| - 30, IsAUser);
      FirstOfTail(s, |s| - 30, IsNoTool);
      TailIsCut(s, t, user, other, Trimmed(s));
    }
  }

  lemma OneCut(s: History, q: History, r: History)
    requires CutTo(s, q) && CutTo(s, r)
    ensures q == r
  {
    OnePlace(s, |s| - |q|, |s| - |r|);
  }

  predicate NoUsers(ms: History) {
    forall m | m in ms :: m.role != User
  }

  /** The place moves on with what is appended, whether or not the front was cut before. */
  lemma CutPlaceMoves(a: History, b: History, i: nat, j: nat)
    requires NoUsers(b) && CutPlace(a, i) && CutPlace(a + b, j)
    ensures i <= j && CutPlace(a[i..] + b, j - i)
  {
    var all, left := a + b, a[i..] + b;
    assert |left| == |all| - i && forall k | 0 <= k < |left| :: left[k] == all[k + i];
    assert forall k | |a| <= k < |all| :: all[k] in b;
    assert forall k | 0 <= k < |a| :: all[k] == a[k];
    if |all| > 30 {
      var base := |all| - 30;
      assert |a| > 30 ==> base >= |a| - 30;
      assert j < |all| ==> base <= j;
      PlaceIsBehind(a, b, i, j);
      if |left| > 30 {
        assert forall k | |left| - 30 <= k < |left| :: left[k] == all[k + i];
        NoneShifts(all, left, i, IsAUser);
        NoneShifts(all, left, i, IsNoTool);
      }
    }
  }

  lemma NoneShifts(all: History, left: History, i: nat, p: Message -> bool)
    requires |left| > 30 && |all| == |left| + i && forall k | 0 <= k < |left| :: left[k] == all[k + i]
    ensures NoneFrom(left, |left| - 30, p) <==> NoneFrom(all, |all| - 30, p)
  {
    if NoneFrom(left, |left| - 30, p) {
      forall k | |all| - 30 <= k < |all| ensures !p(all[k]) { assert !p(left[k - i]); }
    }
  }

  lemma PlaceIsBehind(a: History, b: History, i: nat, j: nat)
    requires NoUsers(b) && CutPlace(a, i) && CutPlace(a + b, j) && |a + b| > 30
    ensures i <= j
    ensures |a| + |b| - i <= 30 ==> i == j
  {
    var all := a + b;
    assert forall k | |a| <= k < |all| :: all[k] in b;
    assert forall k | 0 <= k < |a| :: all[k] == a[k];
  }

  lemma CutAtPlace(s: History, place: nat, r: History)
    requires CutTo(s, r) && CutPlace(s, place)
    ensures place <= |s| && r == s[place..]
  {
    OnePlace(s, |s| - |r|, place);
  }

  lemma EndOfEnd(a: History, b: History, i: nat, j: nat)
    requires i <= |a| && i <= j <= |a| + |b|
    ensures (a[i..] + b)[j - i..] == (a + b)[j..]
  {
    assert a[i..] + b == (a + b)[i..];
    TailCut(a + b, i, j - i);
  }

  lemma CutOnceIsEnough(a: History, b: History, cut: History, twice: History, once: History)
    requires NoUsers(b) && CutTo(a, cut) && CutTo(cut + b, twice) && CutTo(a + b, once)
    ensures twice == once
  {
    var i, j := |a| - |cut|, |a + b| - |once|;
    CutPlaceMoves(a, b, i, j);
    CutAtPlace(cut + b, j - i, twice);
    EndOfEnd(a, b, i, j);
  }

  // --------------------------------------------------------------- over all cycles

  /** What a cycle says, and when it is over. */
  function Added(c: Cycle): History {
    Play(c, 0, 0).0
  }

  /** The last reading of the cycle's own flag found it stopped. */
  predicate StoppedIn(c: Cycle) {
    Play(c, 0, 0).1 >= c.stop
  }

  /** What a cycle says that counts. */
  function SaidIn(c: Cycle): History {
    if StoppedIn(c) then [] else Added(c)
  }

  /** Everything the cycles that were not stopped have said. */
  function AllSaid(cycles: seq<Cycle>): History {
    if cycles == [] then [] else SaidIn(cycles[0]) + AllSaid(cycles[1..])
  }

  lemma {:induction false} PlayHasNoUsers(c: Cycle, k: nat, moment: nat)
    ensures NoUsers(Play(c, k, moment).0)
    decreases MAX_LOOPS - k
  {
    if k < MAX_LOOPS && moment < c.stop && moment < c.halt && At(c.turns, k).Calls? {
      PlayHasNoUsers(c, k + 1, AfterTools(|At(c.turns, k).calls|, moment + 1, c.stop));
    }
  }

  /** An unstopped cycle's messages join the conversation before it is cut; a stopped one's are forgotten. */
  lemma CycleRemembers(s: History, c: Cycle)
    ensures CutTo(s + SaidIn(c), AfterCycle(s, c))
    ensures AfterCycle(s, c) == Trimmed(s + SaidIn(c))
  {
    assert s + [] == s;
    TrimCutsThere(s + SaidIn(c));
  }

  lemma CutRegrouped(a: History, b: History, c: History, r: History)
    requires CutTo((a + b) + c, r)
    ensures CutTo(a + (b + c), r)
  {
    assert (a + b) + c == a + (b + c);
  }

  lemma {:induction false} RemembersMore(all: History, left: History, cycles: seq<Cycle>)
    requires CutTo(all, left)
    ensures CutTo(all + AllSaid(cycles), AfterCycles(left, cycles))
    decreases |cycles|
  {
    if cycles == [] {
      assert all + [] == all;
    } else {
      var c := cycles[0];
      NextCycleRemembers(all, left, c);
      RemembersMore(all + SaidIn(c), AfterCycle(left, c), cycles[1..]);
      CutRegrouped(all, SaidIn(c), AllSaid(cycles[1..]), AfterCycles(left, cycles));
    }
  }

  /** Over every run of cycles the conversation is everything the unstopped cycles said, cut once: nothing
      is forgotten earlier than the limit asks for, and nothing a stopped cycle said is remembered. */
  lemma RemembersAllSaid(s: History, cycles: seq<Cycle>)
    requires |s| <= 30
    ensures CutTo(s + AllSaid(cycles), AfterCycles(s, cycles))
  {
    assert CutTo(s, s) by { assert s[0..] == s; }
    RemembersMore(s, s, cycles);
  }

  lemma NextCycleRemembers(all: History, left: History, c: Cycle)
    requires CutTo(all, left)
    ensures CutTo(all + SaidIn(c), AfterCycle(left, c))
  {
    var said := SaidIn(c);
    PlayHasNoUsers(c, 0, 0);
    CycleRemembers(left, c);
    TrimCutsThere(all + said);
    CutOnceIsEnough(all, said, left, AfterCycle(left, c), Trimmed(all + said));
  }

  lemma FirstSaid(cycles: seq<Cycle>, c: Cycle)
    requires cycles != []
    ensures AllSaid(cycles + [c]) == SaidIn(cycles[0]) + AllSaid(cycles[1..] + [c])
  {
    assert (cycles + [c])[1..] == cycles[1..] + [c];
  }

  lemma OnlySaid(c: Cycle)
    ensures AllSaid([c]) == SaidIn(c)
  {
    assert [c][1..] == [] && SaidIn(c) + [] == SaidIn(c);
  }

  lemma {:induction false} SaidConcat(cycles: seq<Cycle>, c: Cycle)
    ensures AllSaid(cycles + [c]) == AllSaid(cycles) + SaidIn(c)
  {
    if cycles == [] {
      OnlySaid(c);
      assert cycles + [c] == [c] && [] + SaidIn(c) == SaidIn(c);
    } else {
      FirstSaid(cycles, c);
      SaidConcat(cycles[1..], c);
      Regrouped(SaidIn(cycles[0]), AllSaid(cycles[1..]), SaidIn(c));
    }
  }

  /** A cut never takes from an end that fits and begins with an answer. */
  lemma CutKeepsEnd(older: History, newest: History, r: History)
    requires CutTo(older + newest, r) && NoUsers(older) && NoUsers(newest) && |newest| <= 30
    requires newest != [] ==> newest[0].role == Assistant
    ensures |newest| <= |r| && r[|r| - |newest|..] == newest
  {
    var all := older + newest;
    assert forall k | 0 <= k < |all| :: all[k] in older || all[k] in newest;
    assert newest != [] ==> all[|older|] == newest[0];
    assert |all| - |r| <= |older|;
    assert r[|r| - |newest|..] == newest;
  }

  /** What the newest cycle said is there as a whole if it fits, unless the cycle was stopped. */
  lemma NewestCycleIsThere(cycles: seq<Cycle>, c: Cycle)
    requires !StoppedIn(c) && |Added(c)| <= 30
    ensures var r := AfterCycles([], cycles + [c]);
            |Added(c)| <= |r| && r[|r| - |Added(c)|..] == Added(c)
  {
    RemembersAllSaid([], cycles + [c]);
    SaidConcat(cycles, c);
    assert [] + (AllSaid(cycles) + SaidIn(c)) == AllSaid(cycles) + Added(c);
    SaidHasNoUsers(cycles);
    PlayHasNoUsers(c, 0, 0);
    PlayBegins(c);
    CutKeepsEnd(AllSaid(cycles), Added(c), AfterCycles([], cycles + [c]));
  }

  lemma PlayBegins(c: Cycle)
    ensures Added(c) != [] ==> Added(c)[0].role == Assistant
  {
  }

  lemma {:induction false} SaidHasNoUsers(cycles: seq<Cycle>)
    ensures NoUsers(AllSaid(cycles))
  {
    if cycles != [] {
      SaidHasNoUsers(cycles[1..]);
      PlayHasNoUsers(cycles[0], 0, 0);
    }
  }

  /** The last k messages are complete blocks. */
  predicate EndsInBlocks(s: History, k: nat) {
    k <= |s| && Blocks(s[|s| - k..])
  }

  /** The longest end of a history that is made of complete blocks and at most thirty messages long. */
  ghost predicate LongestEnd(all: History, r: History) {
    && |r| <= |all| && r == all[|all| - |r|..] && |r| <= 30 && Blocks(r)
    && forall k | |r| < k <= 30 :: !EndsInBlocks(all, k)
  }

  lemma {:induction false} SaidIsBlocks(cycles: seq<Cycle>)
    requires forall c | c in cycles :: Modest(c)
    ensures Blocks(AllSaid(cycles)) && FewCalls(AllSaid(cycles))
  {
    if cycles != [] {
      var c, rest := cycles[0], AllSaid(cycles[1..]);
      SaidIsBlocks(cycles[1..]);
      if !StoppedIn(c) {
        PlayGivesBlocks(c, 0, 0);
        PlayHasFewCalls(c, 0, 0);
        BlocksConcatFrom(Added(c), rest, 0);
      } else {
        assert [] + rest == rest;
      }
    }
  }

  /** Over every run of a fresh controller in which no turn calls thirty tools or more, the conversation is
      the longest end, in complete blocks and at most thirty messages, of all that its unstopped cycles said. */
  lemma RemembersLongestEnd(cycles: seq<Cycle>)
    requires forall c | c in cycles :: Modest(c)
    ensures LongestEnd(AllSaid(cycles), AfterCycles([], cycles))
  {
    var all := AllSaid(cycles);
    RemembersAllSaid([], cycles);
    assert [] + all == all;
    TrimCutsThere(all);
    OneCut(all, AfterCycles([], cycles), Trimmed(all));
    SaidIsBlocks(cycles);
    TrimIsLongestEnd(all);
  }

  lemma TrimIsLongestEnd(all: History)
    requires Blocks(all) && FewCalls(all)
    ensures LongestEnd(all, Trimmed(all))
  {
    TrimKeepsFew(all);
    forall k | |Trimmed(all)| < k <= 30 ensures !EndsInBlocks(all, k) {
      if EndsInBlocks(all, k) {
        TrimIsLongest(all, |all| - k);
      }
    }
    TrimIsEnd(all);
  }

  lemma TrimIsEnd(s: History)
    ensures |Trimmed(s)| <= |s| && Trimmed(s) == s[|s| - |Trimmed(s)|..]
  {
    TrimCutsThere(s);
  }

  // ------------------------------------------------------------------- what a cycle says

  /** What one turn of the model adds: its own message and a result for each call it made, in order. */
  function TurnSays(turn: Turn): History {
    match turn
    case Fails => []
    case Says(content) => [Message(Assistant, content, [], "", "", true)]
    case Calls(content, calls, results) =>
      [Message(Assistant, content, calls, "", "", true)] +
      seq(|calls|, i requires 0 <= i < |calls| =>
        Message(Tool, if i < |results| then results[i] else "", [], calls[i].id, "", false))
  }

  /** What the first n turns add. */
  function TurnsSay(turns: seq<Turn>, n: nat): History
    requires n <= |turns|
  {
    if n == 0 then [] else TurnsSay(turns, n - 1) + TurnSays(turns[n - 1])
  }

  /** A cycle ends with a turn that calls no tools, one that fails, the tenth, or the controller's halt. */
  predicate EndsWith(c: Cycle, n: nat, over: nat) {
    && n <= 10 && n <= |c.turns|
    && (forall i | 0 <= i < n :: !c.turns[i].Fails? && (i < n - 1 ==> c.turns[i].Calls?))
    && (n == 10 || n == |c.turns| || c.turns[n].Fails? || (n > 0 && c.turns[n - 1].Says?) || over > c.halt)
  }

  function TurnsUpTo(turns: seq<Turn>): nat -> History {
    (n: nat) => if n <= |turns| then TurnsSay(turns, n) else []
  }

  predicate Adds(turns: seq<Turn>, upTo: nat -> History, k: nat) {
    k < |turns| ==> upTo(k + 1) == upTo(k) + TurnSays(turns[k])
  }

  ghost predicate AddsUp(turns: seq<Turn>, upTo: nat -> History) {
    forall k: nat :: Adds(turns, upTo, k)
  }

  /** What a cycle says from its k-th turn on leads from what the turns before it say to what the first n say. */
  predicate Goes(upTo: nat -> History, k: nat, said: History, n: nat) {
    upTo(k) + said == upTo(n)
  }

  lemma GoesOn(upTo: nat -> History, k: nat, says: History, rest: History, n: nat)
    requires upTo(k + 1) == upTo(k) + says && Goes(upTo, k + 1, rest, n)
    ensures Goes(upTo, k, says + rest, n)
  {
    Regrouped(upTo(k), says, rest);
  }

  lemma Regrouped(a: History, b: History, c: History)
    ensures a + (b + c) == (a + b) + c
  {
  }

  lemma PlayedTurn(c: Cycle, k: nat, moment: nat)
    requires k < 10 && k < |c.turns| && c.turns[k].Calls? && moment < c.halt && Play(c, k, moment).1 < c.stop
    ensures var next := AfterTools(|c.turns[k].calls|, moment + 1, c.stop);
            Play(c, k, moment) == (TurnSays(c.turns[k]) + Play(c, k + 1, next).0, Play(c, k + 1, next).1)
  {
    var n := |c.turns[k].calls|;
    PlayTakesTime(c, k + 1, AfterTools(n, moment + 1, c.stop));
    assert moment < c.stop && Executed(n, moment + 1, c.stop) == n;
    assert [Said(c.turns[k].content, c.turns[k].calls)] + Results(c.turns[k].calls, c.turns[k].results, n) ==
           TurnSays(c.turns[k]);
  }

  lemma LastTurn(c: Cycle, k: nat, moment: nat) returns (n: nat)
    requires k <= 10 && k <= |c.turns| && Play(c, k, moment).1 < c.stop
    requires k == 10 || moment >= c.halt || k == |c.turns| || !c.turns[k].Calls?
    ensures k <= n <= |c.turns| && n <= 10 && n <= k + 1
    ensures Play(c, k, moment).0 == if n == k then [] else TurnSays(c.turns[k])
    ensures n == k ==> k == 10 || k == |c.turns| || c.turns[k].Fails? || Play(c, k, moment).1 > c.halt
    ensures n > k ==> c.turns[k].Says?
  {
    n := if k == 10 || moment >= c.halt || k == |c.turns| || c.turns[k].Fails? then k else k + 1;
  }

  lemma EndGoes(upTo: nat -> History, k: nat, n: nat, says: History, said: History)
    requires k <= n <= k + 1 && said == if n == k then [] else says
    requires n > k ==> upTo(k + 1) == upTo(k) + says
    ensures Goes(upTo, k, said, n)
  {
    assert upTo(k) + [] == upTo(k);
  }

  lemma PlayEnds(c: Cycle, k: nat, moment: nat, upTo: nat -> History) returns (n: nat)
    requires AddsUp(c.turns, upTo) && k <= 10 && k <= |c.turns| && forall i | 0 <= i < k :: c.turns[i].Calls?
    requires Play(c, k, moment).1 < c.stop
    requires k == 10 || moment >= c.halt || k == |c.turns| || !c.turns[k].Calls?
    ensures Goes(upTo, k, Play(c, k, moment).0, n) && EndsWith(c, n, Play(c, k, moment).1)
  {
    n := LastTurn(c, k, moment);
    assert Adds(c.turns, upTo, k);
    EndGoes(upTo, k, n, if n == k then [] else TurnSays(c.turns[k]), Play(c, k, moment).0);
  }

  lemma Continued(c: Cycle, k: nat, upTo: nat -> History, says: History, rest: History, n: nat, said: History)
    requires AddsUp(c.turns, upTo) && k < |c.turns| && says == TurnSays(c.turns[k]) && said == says + rest
    requires Goes(upTo, k + 1, rest, n)
    ensures Goes(upTo, k, said, n)
  {
    assert Adds(c.turns, upTo, k);
    GoesOn(upTo, k, says, rest, n);
  }

  lemma {:induction false} PlayFollowsTurns(c: Cycle, k: nat, moment: nat, upTo: nat -> History) returns (n: nat)
    requires AddsUp(c.turns, upTo) && k <= 10 && k <= |c.turns| && forall i | 0 <= i < k :: c.turns[i].Calls?
    requires Play(c, k, moment).1 < c.stop
    ensures Goes(upTo, k, Play(c, k, moment).0, n) && EndsWith(c, n, Play(c, k, moment).1)
    decreases 10 - k
  {
    if k == 10 || moment >= c.halt || k == |c.turns| || !c.turns[k].Calls? {
      n := PlayEnds(c, k, moment, upTo);
    } else {
      PlayedTurn(c, k, moment);
      var next := AfterTools(|c.turns[k].calls|, moment + 1, c.stop);
      n := PlayFollowsTurns(c, k + 1, next, upTo);
      Continued(c, k, upTo, TurnSays(c.turns[k]), Play(c, k + 1, next).0, n, Play(c, k, moment).0);
    }
  }

  /** A cycle that is not stopped says exactly what its turns come to, up to the one it ends with. */
  lemma UnstoppedSaysAll(c: Cycle)
    requires !StoppedIn(c)
    ensures exists n: nat :: EndsWith(c, n, Play(c, 0, 0).1) && Added(c) == TurnsSay(c.turns, n)
  {
    var n := PlayFollowsTurns(c, 0, 0, TurnsUpTo(c.turns));
    NothingInFront(Play(c, 0, 0).0);
  }

  lemma NothingInFront(ms: History)
    ensures [] + ms == ms
  {
  }

  lemma FewerResults(head: Message, calls: seq<ToolCall>, results: seq<string>, done: nat, more: nat, rest: History)
    requires done <= more <= |calls|
    ensures [head] + Results(calls, results, done) + [] <= [head] + Results(calls, results, more) + rest
  {
  }

  /** Every message takes a reading of the flag that did not find it. */
  lemma {:induction false} StopBounds(c: Cycle, k: nat, moment: nat)
    ensures |Play(c, k, moment).0| <= if moment < c.stop then c.stop - moment else 0
    decreases MAX_LOOPS - k
  {
    if k < MAX_LOOPS && moment < c.stop && moment < c.halt && At(c.turns, k).Calls? {
      StopBounds(c, k + 1, AfterTools(|At(c.turns, k).calls|, moment + 1, c.stop));
    }
  }

  /** A stop only cuts short: what is said under it is a beginning of what is said without. */
  lemma {:induction false} StopCutsShort(c: Cycle, k: nat, moment: nat, later: nat)
    requires c.stop <= later
    ensures Play(c, k, moment).0 <= Play(c.(stop := later), k, moment).0
    decreases MAX_LOOPS - k
  {
    if k < MAX_LOOPS && moment < c.stop && moment < c.halt && At(c.turns, k).Calls? {
      var turn := At(c.turns, k);
      var n := |turn.calls|;
      var next, free := AfterTools(n, moment + 1, c.stop), AfterTools(n, moment + 1, later);
      if Executed(n, moment + 1, c.stop) < n {
        assert Play(c, k + 1, next).0 == [];
        FewerResults(Said(turn.content, turn.calls), turn.calls, turn.results, Executed(n, moment + 1, c.stop),
                     Executed(n, moment + 1, later), Play(c.(stop := later), k + 1, free).0);
      } else {
        StopCutsShort(c, k + 1, next, later);
      }
    }
  }

  lemma NextCall(c: Cycle, k: nat, moment: nat, soFar: History) returns (next: nat)
    requires |Sent(c, k, moment, soFar)| > 1
    ensures k < 9 && k < |c.turns|
    ensures Sent(c, k, moment, soFar) == [soFar] + Sent(c, k + 1, next, soFar + TurnSays(c.turns[k]))
  {
    var turn := c.turns[k];
    var n := |turn.calls|;
    next := AfterTools(n, moment + 1, c.stop);
    assert Executed(n, moment + 1, c.stop) == n;
    assert [Said(turn.content, turn.calls)] + Results(turn.calls, turn.results, n) == TurnSays(turn);
  }

  /** And nothing is put off: every reading that found neither flag but the last one brought a message; in a
      cycle that a stop cuts short every one of them did. */
  lemma {:induction false} EveryReadingCounts(c: Cycle, k: nat, moment: nat)
    ensures var (said, over) := Play(c, k, moment);
            && |said| + 1 >= (if over < c.stop then over else c.stop) - moment
            && (moment < c.stop < over ==> |said| == c.stop - moment)
    decreases MAX_LOOPS - k
  {
    if k < MAX_LOOPS && moment < c.stop && moment < c.halt && At(c.turns, k).Calls? {
      EveryReadingCounts(c, k + 1, AfterTools(|At(c.turns, k).calls|, moment + 1, c.stop));
    }
  }

  /** No model call is made once either flag is set, and the controller's cuts short as well. */
  lemma {:induction false} HaltCutsShort(c: Cycle, k: nat, moment: nat, soFar: History, later: nat)
    requires c.halt <= later
    ensures |Sent(c, k, moment, soFar)| <= if moment < c.halt then c.halt - moment else 0
    ensures |Sent(c, k, moment, soFar)| <= if moment < c.stop then c.stop - moment else 0
    ensures Play(c, k, moment).0 <= Play(c.(halt := later), k, moment).0
    decreases MAX_LOOPS - k
  {
    if k < MAX_LOOPS && moment < c.stop && moment < c.halt && At(c.turns, k).Calls? {
      var turn := At(c.turns, k);
      var next := AfterTools(|turn.calls|, moment + 1, c.stop);
      var done := Executed(|turn.calls|, moment + 1, c.stop);
      var block := [Said(turn.content, turn.calls)] + Results(turn.calls, turn.results, done);
      HaltCutsShort(c, k + 1, next, soFar + block, later);
    }
  }

  predicate Carries(upTo: nat -> History, last: nat, n: nat, request: History) {
    n <= last && request == upTo(n)
  }

  /** The model calls from the k-th to the last that is allowed each carry what the turns before it came to. */
  predicate CarryTurns(upTo: nat -> History, last: nat, k: nat, sent: seq<History>) {
    forall j: nat | j < |sent| :: Carries(upTo, last, k + j, sent[j])
  }

  lemma OneMoreCall(upTo: nat -> History, last: nat, k: nat, rest: seq<History>)
    requires k <= last && CarryTurns(upTo, last, k + 1, rest)
    ensures CarryTurns(upTo, last, k, [upTo(k)] + rest)
  {
    var sent := [upTo(k)] + rest;
    forall j: nat | j < |sent| ensures Carries(upTo, last, k + j, sent[j]) {
      if j > 0 {
        assert Carries(upTo, last, k + 1 + (j - 1), rest[j - 1]);
      }
    }
  }

  lemma LastCall(c: Cycle, k: nat, moment: nat, soFar: History)
    requires |Sent(c, k, moment, soFar)| <= 1
    ensures Sent(c, k, moment, soFar) == [] || (k < 10 && Sent(c, k, moment, soFar) == [soFar])
  {
  }

  lemma {:induction false} CallsCarryFrom(c: Cycle, k: nat, moment: nat, upTo: nat -> History, last: nat)
    requires AddsUp(c.turns, upTo) && k <= |c.turns| && last == if |c.turns| < 9 then |c.turns| else 9
    ensures CarryTurns(upTo, last, k, Sent(c, k, moment, upTo(k)))
    decreases 10 - k
  {
    if |Sent(c, k, moment, upTo(k))| <= 1 {
      LastCall(c, k, moment, upTo(k));
    } else {
      var next := NextCall(c, k, moment, upTo(k));
      assert Adds(c.turns, upTo, k);
      CallsCarryFrom(c, k + 1, next, upTo, last);
      OneMoreCall(upTo, last, k, Sent(c, k + 1, next, upTo(k + 1)));
    }
  }

  /** The j-th model call of a cycle, stopped or not, carries all that the turns before it came to. */
  lemma CallsCarryTurns(c: Cycle, j: nat)
    requires j < |Sent(c, 0, 0, [])|
    ensures j <= |c.turns| && j < 10 && Sent(c, 0, 0, [])[j] == TurnsSay(c.turns, j)
  {
    var last := if |c.turns| < 9 then |c.turns| else 9;
    CallsCarryFrom(c, 0, 0, TurnsUpTo(c.turns), last);
    assert Carries(TurnsUpTo(c.turns), last, 0 + j, Sent(c, 0, 0, [])[j]);
  }

  function AnswersIn(ms: History): nat {
    if ms == [] then 0 else AnswersIn(ms[..|ms| - 1]) + if ms[|ms| - 1].role == Assistant then 1 else 0
  }

  lemma {:induction false} AnswersConcat(a: History, b: History)
    ensures AnswersIn(a + b) == AnswersIn(a) + AnswersIn(b)
    decreases |b|
  {
    if b == [] {
      assert a + b == a;
    } else {
      AnswersConcat(a, b[..|b| - 1]);
      assert (a + b)[..|a + b| - 1] == a + b[..|b| - 1];
    }
  }

  lemma {:induction false} NoAnswers(ms: History)
    requires AllTools(ms)
    ensures AnswersIn(ms) == 0
  {
    if ms != [] {
      NoAnswers(ms[..|ms| - 1]);
    }
  }

  lemma OneAnswer(content: string, calls: seq<ToolCall>, results: History, rest: History)
    requires AllTools(results)
    ensures AnswersIn([Said(content, calls)] + results + rest) == 1 + AnswersIn(rest)
  {
    AnswersConcat([Said(content, calls)] + results, rest);
    AnswersConcat([Said(content, calls)], results);
    NoAnswers(results);
    assert [Said(content, calls)][..0] == [];
  }

  /** Every model call brings an answer, but for the last one, which may fail. */
  lemma {:induction false} CallsAreAnswered(c: Cycle, k: nat, moment: nat, soFar: History)
    ensures var calls, answers := |Sent(c, k, moment, soFar)|, AnswersIn(Play(c, k, moment).0);
            answers <= calls <= answers + 1
    decreases MAX_LOOPS - k
  {
    if k < MAX_LOOPS && moment < c.stop && moment < c.halt {
      match At(c.turns, k)
      case Fails =>
      case Says(content) =>
        OneAnswer(content, [], [], []);
        assert [Said(content, [])] + [] + [] == [Said(content, [])];
      case Calls(content, calls, results) =>
        var done := Executed(|calls|, moment + 1, c.stop);
        var ran := Results(calls, results, done);
        var next := AfterTools(|calls|, moment + 1, c.stop);
        CallsAreAnswered(c, k + 1, next, soFar + ([Said(content, calls)] + ran));
        OneAnswer(content, calls, ran, Play(c, k + 1, next).0);
    }
  }
}
