/** What the context checks leave of a history, and what their limits and estimates come to. */
module WindowChecks {
  import opened Common
  import opened Messages
  import opened Rounds
  import opened Window
  import Tokens

  // --------------------------------------------------------------------- what is left

  /** A summary that arrived, as a system message. */
  predicate IsSummary(prefix: string, summary: Option<string>, messages: History) {
    match summary
    case None => messages == []
    case Some(text) => messages == [Message(System, prefix + "\n" + text, [], "", "", false)]
  }

  /** r is the history with all but its ten newest rounds replaced by the summary, if it has more. */
  ghost predicate TenNewest(ms: History, prefix: string, summary: Option<string>, r: History) {
    var rounds := Split(ms).rounds;
    if |rounds| <= 10 then r == ms
    else
      exists note :: IsSummary(prefix, summary, note) && r == note + Flatten(rounds[|rounds| - 10..])
  }

  /** The request is estimated at 85% of the window or less. */
  predicate OnTarget(ms: History, lim: Limits)
    requires lim.Valid()
  {
    100 * RequestEstimate(ms, lim) <= 85 * lim.window
  }

  /** r is what has to be left of the history to get it on target: all of it, or else its long texts cut and
      as few of its oldest rounds dropped as will do, but never the newest. */
  ghost predicate Fitted(ms: History, lim: Limits, note: Note, r: History)
    requires lim.Valid()
  {
    if OnTarget(ms, lim) then r == ms
    else
      var cut := Truncated(ms, lim.MessageCap(), note);
      exists k: nat :: FewestDropped(cut, lim, k, r)
  }

  ghost predicate FewestDropped(cut: History, lim: Limits, k: nat, r: History)
    requires lim.Valid()
  {
    && (k == 0 || k < RoundCount(cut)) && r == DropRounds(cut, k)
    && (forall j: nat | j < k :: !OnTarget(DropRounds(cut, j), lim))
    && (OnTarget(r, lim) || RoundCount(r) <= 1)
  }

  /** Compressed to ten rounds first, then made to fit. */
  ghost predicate SummedUp(ms: History, lim: Limits, note: Note, prefix: string, summary: Option<string>, r: History)
    requires lim.Valid()
  {
    exists base :: TenNewest(ms, prefix, summary, base) && Fitted(base, lim, note, r)
  }

  /** What a check in front of a request leaves of the history it finds. */
  ghost predicate LeftInFront(ms: History, lim: Limits, note: Note, p: Prefixes, s: Summaries, r: History)
    requires lim.Valid()
  {
    var estimate := RequestEstimate(ms, lim);
    && (100 * estimate < 80 * lim.window ==> r == ms)
    && (80 * lim.window <= 100 * estimate < 95 * lim.window ==> SummedUp(ms, lim, note, p.summary, s.automatic, r))
    && (95 * lim.window <= 100 * estimate ==> Fitted(ms, lim, note, r))
  }

  /** What the deferred work leaves: the summary of a hand-off in front, then a compaction. */
  ghost predicate LeftByDeferred(ms: History, handOff: bool, compaction: bool, p: Prefixes, s: Summaries, r: History) {
    exists note ::
      && IsSummary(p.handOff, if handOff then s.handOff else None, note)
      && if compaction then TenNewest(note + ms, p.summary, s.forced, r) else r == note + ms
  }

  lemma FitsMeans(ms: History, lim: Limits)
    requires lim.Valid()
    ensures Fits(ms, lim) <==> OnTarget(ms, lim)
  {
  }

  lemma CompressedIsTenNewest(ms: History, prefix: string, summary: Option<string>)
    ensures TenNewest(ms, prefix, summary, Compressed(ms, SummaryNote(prefix, summary)))
  {
    assert IsSummary(prefix, summary, SummaryNote(prefix, summary));
    if Compressible(ms) {
      CompressedShape(ms, SummaryNote(prefix, summary));
    }
  }

  lemma ReducedIsFitted(ms: History, lim: Limits, note: Note)
    requires lim.Valid()
    ensures Fitted(ms, lim, note, Reduced(ms, lim, note))
  {
    FitsMeans(ms, lim);
    if !Fits(ms, lim) {
      var k := ReducedIsLeast(ms, lim, note);
      LeastIsFewest(Truncated(ms, lim.MessageCap(), note), lim, k);
    }
  }

  lemma LeastIsFewest(cut: History, lim: Limits, k: nat)
    requires lim.Valid() && LeastCut(cut, lim, k)
    ensures FewestDropped(cut, lim, k, DropRounds(cut, k))
  {
    FitsMeans(DropRounds(cut, k), lim);
    forall j: nat | j < k ensures !OnTarget(DropRounds(cut, j), lim) {
      assert !FitsWithout(cut, lim, j);
      FitsMeans(DropRounds(cut, j), lim);
    }
    CountAfterDrop(cut, k);
  }

  lemma ReducedIsSummedUp(ms: History, lim: Limits, note: Note, prefix: string, summary: Option<string>)
    requires lim.Valid()
    ensures SummedUp(ms, lim, note, prefix, summary, Reduced(Compressed(ms, SummaryNote(prefix, summary)), lim, note))
  {
    CompressedIsTenNewest(ms, prefix, summary);
    ReducedIsFitted(Compressed(ms, SummaryNote(prefix, summary)), lim, note);
  }

  /** The check in front of a request leaves the history alone below 80% of the window; from 80% on it keeps
      the ten newest rounds behind a summary of the others, and cuts texts and drops rounds only if that is
      still over target; from 95% on it cuts and drops at once, and summarizes nothing. */
  lemma PreflightLeaves(ms: History, lim: Limits, note: Note, p: Prefixes, s: Summaries)
    requires lim.Valid()
    ensures LeftInFront(ms, lim, note, p, s, Preflight(ms, lim, note, p, s))
  {
    ReducedIsFitted(ms, lim, note);
    ReducedIsSummedUp(ms, lim, note, p.summary, s.automatic);
  }

  /** And the check behind one does the same as between 80% and 95% exactly when it is triggered. */
  lemma AfterRequestLeaves(ms: History, triggered: bool, lim: Limits, note: Note, p: Prefixes, s: Summaries)
    requires lim.Valid()
    ensures var r := AfterRequest(ms, triggered, lim, note, p, s);
            if triggered then SummedUp(ms, lim, note, p.summary, s.automatic, r) else r == ms
  {
    ReducedIsSummedUp(ms, lim, note, p.summary, s.automatic);
  }

  lemma PreparedLeaves(ms: History, handOff: bool, compaction: bool, p: Prefixes, s: Summaries)
    ensures LeftByDeferred(ms, handOff, compaction, p, s, Prepared(ms, handOff, compaction, p, s))
  {
    var note := SummaryNote(p.handOff, if handOff then s.handOff else None);
    assert IsSummary(p.handOff, if handOff then s.handOff else None, note);
    assert [] + ms == ms;
    CompressedIsTenNewest(note + ms, p.summary, s.forced);
  }

  /** What the whole check in front of a request leaves: the deferred work first, then what the estimate of
      what that left asks for. */
  ghost predicate LeftByCheck(ms: History, handOff: bool, compaction: bool, lim: Limits, note: Note, p: Prefixes,
                              s: Summaries, r: History)
    requires lim.Valid()
  {
    exists prepared ::
      LeftByDeferred(ms, handOff, compaction, p, s, prepared) && LeftInFront(prepared, lim, note, p, s, r)
  }

  lemma CheckLeaves(ms: History, handOff: bool, compaction: bool, lim: Limits, note: Note, p: Prefixes, s: Summaries)
    requires lim.Valid()
    ensures LeftByCheck(ms, handOff, compaction, lim, note, p, s,
                        Preflight(Prepared(ms, handOff, compaction, p, s), lim, note, p, s))
  {
    PreparedLeaves(ms, handOff, compaction, p, s);
    PreflightLeaves(Prepared(ms, handOff, compaction, p, s), lim, note, p, s);
  }

  /** Once summed up, a history has ten rounds at most; if more were there and the result is on target, it is
      the summary and, word for word, an end of the history that begins with a turn. */
  lemma SummedUpMeans(ms: History, lim: Limits, note: Note, prefix: string, summary: Option<string>, r: History)
    requires lim.Valid() && SummedUp(ms, lim, note, prefix, summary, r)
    ensures RoundCount(r) <= 10
    ensures RoundCount(ms) <= 10 && OnTarget(ms, lim) ==> r == ms
    ensures RoundCount(ms) > 10 ==>
              exists front, kept, messages ::
                && ms == front + kept && TurnHead(kept) && RoundCount(kept) == 10
                && IsSummary(prefix, summary, messages) && Fitted(messages + kept, lim, note, r)
  {
    var base :| TenNewest(ms, prefix, summary, base) && Fitted(base, lim, note, r);
    if RoundCount(ms) > 10 {
      var k := RoundCount(ms) - 10;
      var kept := Flatten(Split(ms).rounds[k..]);
      var messages :| IsSummary(prefix, summary, messages) && base == messages + kept;
      TailStartsTurn(ms, k);
      TailResplits(ms, k);
      assert ms == Flatten(Split(ms).rounds[..k]) + kept && RoundCount(kept) == 10;
      SummaryAddsNoRound(messages, kept);
    }
    FittedAddsNoRound(base, lim, note, r);
  }

  lemma SummaryAddsNoRound(messages: History, kept: History)
    requires messages == [] || (|messages| == 1 && messages[0].role == System)
    ensures RoundCount(messages + kept) == RoundCount(kept)
  {
    if messages == [] {
      assert messages + kept == kept;
    } else {
      SplitPrepend(messages[0], kept);
      assert messages == [messages[0]];
    }
  }

  lemma FittedAddsNoRound(ms: History, lim: Limits, note: Note, r: History)
    requires lim.Valid() && Fitted(ms, lim, note, r)
    ensures RoundCount(r) <= RoundCount(ms)
  {
    if !OnTarget(ms, lim) {
      var cut := Truncated(ms, lim.MessageCap(), note);
      var k: nat :| FewestDropped(cut, lim, k, r);
      CutterMaps(ms, lim.MessageCap(), note);
      SplitMaps(Cutter(lim.MessageCap(), note), ms);
      if k > 0 {
        DropCounts(cut, k);
      }
    }
  }

  // -------------------------------------------------------------------- what is cut

  /** Truncation leaves every message alone but the plain ones of a user, a tool or the system that are over
      the cap; of these it keeps the longest beginning within it, and says what is missing. */
  lemma TruncatedMeans(ms: History, cap: nat, note: Note, i: nat)
    requires i < |ms| && cap > 0
    ensures var m, r := ms[i], Truncated(ms, cap, note)[i];
            if m.sdk || m.role == Assistant || m.role.Other? || Tokens.Estimate(m.content) <= cap then r == m
            else
              exists n: nat ::
                && n < |m.content| && Tokens.Estimate(m.content[..n]) <= cap < Tokens.Estimate(m.content[..n + 1])
                && r == m.(content := m.content[..n] + "\n" + note(|m.content|, n))
  {
    var m := ms[i];
    if Oversized(m, cap) {
      Tokens.ShrinkIsLongestFit(m.content, cap);
      var n := |Tokens.Shrink(m.content, cap)|;
      assert m.content[..n] == Tokens.Shrink(m.content, cap);
      assert m.content[..|m.content|] == m.content;
      assert n < |m.content|;
      Tokens.EstimateOfPrefix(m.content, n + 1);
    }
  }

  /** The longest a text may be: 8% of the window, but no less than 1024 and no more than 16000 tokens. */
  lemma MessageCapMeans(lim: Limits)
    ensures 1024 <= lim.MessageCap() <= 16000
    ensures 102400 <= 8 * lim.window <= 1600000 ==>
              100 * lim.MessageCap() <= 8 * lim.window < 100 * (lim.MessageCap() + 1)
    ensures 8 * lim.window < 102400 ==> lim.MessageCap() == 1024
    ensures 8 * lim.window > 1600000 ==> lim.MessageCap() == 16000
  {
  }

  /** A request triggers the check behind it exactly when its round's largest answer came to a fifth of the
      window or its prompt to four fifths. */
  lemma TriggeredMeans(roundMaxTotal: nat, lastPrompt: nat, lim: Limits)
    requires lim.Valid()
    ensures Triggered(roundMaxTotal, lastPrompt, lim) <==>
            5 * roundMaxTotal >= lim.window || 5 * lastPrompt >= 4 * lim.window
  {
  }

  /** A summarizing request may carry 30% of the window, and never less than 1024 tokens. */
  lemma SummaryCapMeans(window: nat)
    ensures Tokens.SummaryCap(window) >= 1024
    ensures 30 * window < 102500 ==> Tokens.SummaryCap(window) == 1024
    ensures 30 * window >= 102400 ==>
              100 * Tokens.SummaryCap(window) <= 30 * window < 100 * (Tokens.SummaryCap(window) + 1)
  {
  }

  // -------------------------------------------------------------------- what it costs

  function Wide(text: string): nat {
    Tokens.CjkTo(text, |text|)
  }

  lemma {:induction false} WideConcat(a: string, b: string)
    ensures Wide(a + b) == Wide(a) + Wide(b)
    decreases |b|
  {
    Tokens.CjkOfPrefix(a, b, |a|);
    if b == "" {
      assert a + b == a;
    } else {
      var n := |b| - 1;
      WideConcat(a, b[..n]);
      assert a + b == (a + b[..n]) + [b[n]];
      Tokens.CjkOfPrefix(a + b[..n], [b[n]], |a| + n);
      assert b[..n] + b[n..] == b;
      Tokens.CjkOfPrefix(b[..n], b[n..], n);
    }
  }

  lemma {:induction false} WideCounted(text: string, narrow: string, wide: string)
    requires multiset(text) == multiset(narrow) + multiset(wide)
    requires (forall c | c in narrow :: !Tokens.IsCjk(c)) && forall c | c in wide :: Tokens.IsCjk(c)
    ensures Wide(text) == |wide| && |text| == |narrow| + |wide|
    decreases |text|
  {
    assert |multiset(text)| == |multiset(narrow)| + |multiset(wide)|;
    if text != "" {
      var n := |text| - 1;
      var c, rest := text[n], text[..n];
      assert text == rest + [c];
      assert multiset(text) == multiset(rest) + multiset{c};
      WideConcat(rest, [c]);
      if Tokens.IsCjk(c) {
        var i := TakeOne(rest, c, wide, narrow);
        WideCounted(rest, narrow, wide[..i] + wide[i + 1..]);
      } else {
        var i := TakeOne(rest, c, narrow, wide);
        WideCounted(rest, narrow[..i] + narrow[i + 1..], wide);
      }
    }
  }

  lemma TakeOne(rest: string, c: char, mine: string, others: string) returns (i: nat)
    requires multiset(rest) + multiset{c} == multiset(mine) + multiset(others) && c !in others
    ensures i < |mine| && mine[i] == c
    ensures multiset(rest) == multiset(mine[..i] + mine[i + 1..]) + multiset(others)
    ensures forall d | d in mine[..i] + mine[i + 1..] :: d in mine
  {
    assert (multiset(rest) + multiset{c})[c] > 0 && multiset(others)[c] == 0;
    assert c in multiset(mine);
    i :| 0 <= i < |mine| && mine[i] == c;
    RestCounted(mine, i);
    var left := multiset(mine[..i] + mine[i + 1..]);
    CancelOne(multiset(rest), left + multiset(others), c);
  }

  lemma CancelOne(a: multiset<char>, b: multiset<char>, c: char)
    requires a + multiset{c} == b + multiset{c}
    ensures a == b
  {
    forall x ensures a[x] == b[x] {
      assert (a + multiset{c})[x] == (b + multiset{c})[x];
    }
  }

  lemma RestCounted(text: string, i: nat)
    requires i < |text|
    ensures multiset(text) == multiset(text[..i] + text[i + 1..]) + multiset{text[i]}
    ensures forall c | c in text[..i] + text[i + 1..] :: c in text
  {
    assert text == text[..i] + [text[i]] + text[i + 1..];
  }

  /** A text costs one token for each CJK character in it and one for four of the others, whatever their
      order, and one more; nothing if it is empty. */
  lemma EstimateMeans(text: string, narrow: string, wide: string)
    requires multiset(text) == multiset(narrow) + multiset(wide)
    requires (forall c | c in narrow :: !Tokens.IsCjk(c)) && forall c | c in wide :: Tokens.IsCjk(c)
    ensures Tokens.Estimate(text) == if text == "" then 0 else |narrow| / 4 + |wide| + 1
  {
    WideCounted(text, narrow, wide);
  }

  /** How many characters and how many of them wide a text adds to a message, its line end included. */
  datatype Size = Size(chars: nat, wide: nat) {
    function Plus(other: Size): Size {
      Size(chars + other.chars, wide + other.wide)
    }
  }

  function SizeOf(text: string): Size {
    if text == "" then Size(0, 0) else Size(|text| + 1, Wide(text))
  }

  function CallsSize(calls: seq<ToolCall>): Size {
    if calls == [] then Size(0, 0)
    else
      var c := calls[|calls| - 1];
      CallsSize(calls[..|calls| - 1]).Plus(
        Size(|c.name| + |c.arguments| + |c.id| + 3, Wide(c.name) + Wide(c.arguments) + Wide(c.id)))
  }

  function PartsSize(parts: seq<string>): Size {
    if parts == [] then Size(0, 0)
    else PartsSize(parts[..|parts| - 1]).Plus(Size(|parts[|parts| - 1]| + 1, Wide(parts[|parts| - 1])))
  }

  lemma {:induction false} PartsConcat(a: seq<string>, b: seq<string>)
    ensures PartsSize(a + b) == PartsSize(a).Plus(PartsSize(b))
    decreases |b|
  {
    if b == [] {
      assert a + b == a;
    } else {
      PartsConcat(a, b[..|b| - 1]);
      assert (a + b)[..|a + b| - 1] == a + b[..|b| - 1];
    }
  }

  lemma PartsOne(text: string)
    ensures PartsSize([text]) == Size(|text| + 1, Wide(text))
  {
    assert [text][..0] == [];
  }

  lemma {:induction false} JoinedSize(parts: seq<string>)
    requires parts != []
    ensures PartsSize(parts) == Size(|JoinLines(parts)| + 1, Wide(JoinLines(parts)))
  {
    PartsOne(parts[0]);
    if |parts| == 1 {
      assert parts == [parts[0]];
    } else {
      JoinedSize(parts[1..]);
      PartsConcat([parts[0]], parts[1..]);
      assert parts == [parts[0]] + parts[1..];
      WideConcat(parts[0] + "\n", JoinLines(parts[1..]));
      WideConcat(parts[0], "\n");
      assert Wide("\n") == 0 by { assert !Tokens.IsCjk('\n') && Tokens.CjkTo("\n", 0) == 0; }
    }
  }

  lemma OneCallSize(c: ToolCall)
    ensures var text := c.name + " " + c.arguments + " " + c.id;
            && |text| == |c.name| + |c.arguments| + |c.id| + 2
            && Wide(text) == Wide(c.name) + Wide(c.arguments) + Wide(c.id)
  {
    WideConcat(c.name + " " + c.arguments + " ", c.id);
    WideConcat(c.name + " " + c.arguments, " ");
    WideConcat(c.name + " ", c.arguments);
    WideConcat(c.name, " ");
    assert Wide(" ") == 0 by { assert !Tokens.IsCjk(' ') && Tokens.CjkTo(" ", 0) == 0; }
  }

  lemma {:induction false} CallTextsSize(calls: seq<ToolCall>)
    ensures PartsSize(CallTexts(calls)) == CallsSize(calls)
  {
    if calls != [] {
      var n := |calls| - 1;
      CallTextsSize(calls[..n]);
      OneCallSize(calls[n]);
      assert CallTexts(calls)[..n] == CallTexts(calls[..n]);
    }
  }

  lemma NonEmptySize(text: string)
    ensures PartsSize(NonEmpty(text)) == SizeOf(text)
  {
    PartsOne(text);
  }

  /** A message costs four tokens and what all its texts together cost: its content, the name, arguments and
      id of each call, its reasoning, and the id it answers unless it is a provider object. */
  lemma MessageTokensMean(m: Message)
    ensures var size := SizeOf(m.content).Plus(CallsSize(m.calls)).Plus(SizeOf(m.reasoning)).Plus(
                          SizeOf(if m.sdk then "" else m.answers));
            MessageTokens(m) ==
              4 + if size.chars <= 1 then 0 else (size.chars - 1 - size.wide) / 4 + size.wide + 1
  {
    var a, b, c := NonEmpty(m.content), CallTexts(m.calls), NonEmpty(m.reasoning);
    var d := if m.sdk then [] else NonEmpty(m.answers);
    NonEmptySize(m.content);
    CallTextsSize(m.calls);
    NonEmptySize(m.reasoning);
    NonEmptySize(m.answers);
    PartsConcat(a, b);
    PartsConcat(a + b, c);
    PartsConcat(a + b + c, d);
    if a + b + c + d != [] {
      JoinedSize(a + b + c + d);
    }
  }

  lemma {:induction false} SumOfPrefix(cost: Message -> nat, a: History, b: History, n: nat)
    requires n <= |a|
    ensures SumTo(cost, a + b, n) == SumTo(cost, a, n)
  {
    if n > 0 {
      SumOfPrefix(cost, a, b, n - 1);
    }
  }

  lemma SumOneMore(cost: Message -> nat, a: History, m: Message)
    ensures SumTo(cost, a + [m], |a| + 1) == SumTo(cost, a, |a|) + cost(m)
  {
    SumOfPrefix(cost, a, [m], |a|);
  }

  lemma BaseOneMore(a: History, m: Message, lim: Limits, tokens: nat)
    requires tokens == MessageTokens(m)
    ensures BaseEstimate(a + [m], lim) == BaseEstimate(a, lim) + tokens
  {
    SumOneMore(MessageTokens, a, m);
  }

  /** A request costs what is fixed and each message's tokens, once, times the calibration factor, cut to a
      whole number. */
  lemma RequestEstimateMeans(a: History, m: Message, lim: Limits)
    requires lim.Valid()
    ensures BaseEstimate([], lim) == lim.fixed
    ensures BaseEstimate(a + [m], lim) == BaseEstimate(a, lim) + MessageTokens(m)
    ensures Within(BaseEstimate(a, lim), lim.factor, RequestEstimate(a, lim))
  {
    BaseOneMore(a, m, lim, MessageTokens(m));
    CalibrateMeans(BaseEstimate(a, lim), lim.factor);
  }

  /** n is the product without its fraction. */
  predicate Within(base: nat, factor: real, n: nat) {
    n as real <= base as real * factor < n as real + 1.0
  }

  lemma CalibrateMeans(base: nat, factor: real)
    requires factor >= 0.0
    ensures Within(base, factor, Calibrate(base, factor))
  {
  }
}
