/** Keeping a request inside the model window: compression, truncation and dropped rounds. */
module Window {
  import opened Common
  import opened Messages
  import opened Rounds
  import Tokens

  const MESSAGE_OVERHEAD := 4
  const MESSAGE_TOKEN_CAP_ABS := 16000

  /** How large a request is allowed to be: everything a context check reads besides the history.
      `fixed` is the uncalibrated estimate of the system block and the tool schemas. */
  datatype Limits = Limits(window: nat, fixed: nat, factor: real) {
    predicate Valid() {
      window > 0 && 0.5 <= factor <= 3.0
    }

    function Target(): nat {
      window * 85 / 100
    }

    function MessageCap(): nat {
      var share := window * 8 / 100;
      var cap := if share < MESSAGE_TOKEN_CAP_ABS then share else MESSAGE_TOKEN_CAP_ABS;
      if cap > 1024 then cap else 1024
    }
  }

  /** The note that replaces the cut part, from the original and the kept length. */
  type Note = (nat, nat) -> string

  // -------------------------------------------------------------------- estimates

  function CallTexts(calls: seq<ToolCall>): seq<string> {
    seq(|calls|, i requires 0 <= i < |calls| =>
      calls[i].name + " " + calls[i].arguments + " " + calls[i].id)
  }

  function NonEmpty(text: string): seq<string> {
    if text == "" then [] else [text]
  }

  function JoinLines(parts: seq<string>): string {
    if parts == [] then ""
    else if |parts| == 1 then parts[0]
    else parts[0] + "\n" + JoinLines(parts[1..])
  }

  /** All text of a message that costs tokens; the answered id only counts on a plain dictionary. */
  function MessageText(m: Message): string {
    JoinLines(NonEmpty(m.content) + CallTexts(m.calls) + NonEmpty(m.reasoning)
              + if m.sdk then [] else NonEmpty(m.answers))
  }

  function MessageTokens(m: Message): nat {
    Tokens.Estimate(MessageText(m)) + MESSAGE_OVERHEAD
  }

  function SumTo(cost: Message -> nat, ms: History, n: nat): nat
    requires n <= |ms|
  {
    if n == 0 then 0 else SumTo(cost, ms, n - 1) + cost(ms[n - 1])
  }

  function HistoryTokens(ms: History): nat {
    SumTo(MessageTokens, ms, |ms|)
  }

  function BaseEstimate(ms: History, lim: Limits): nat {
    lim.fixed + HistoryTokens(ms)
  }

  function RequestEstimate(ms: History, lim: Limits): nat
    requires lim.Valid()
  {
    Calibrate(BaseEstimate(ms, lim), lim.factor)
  }

  function Calibrate(base: nat, factor: real): (n: nat)
    requires factor >= 0.0
  {
    assert base as real * factor >= 0.0;
    (base as real * factor).Floor
  }

  predicate Fits(ms: History, lim: Limits)
    requires lim.Valid()
  {
    RequestEstimate(ms, lim) <= lim.Target()
  }

  lemma {:induction false} TailSum(cost: Message -> nat, dropped: History, kept: History, n: nat)
    requires n <= |kept|
    ensures SumTo(cost, dropped + kept, |dropped| + n) >= SumTo(cost, kept, n)
  {
    if n > 0 {
      TailSum(cost, dropped, kept, n - 1);
    }
  }

  /** Dropping messages in front never makes the request larger. */
  lemma TailIsCheaper(dropped: History, kept: History, lim: Limits)
    requires lim.Valid()
    ensures RequestEstimate(kept, lim) <= RequestEstimate(dropped + kept, lim)
  {
    var shorter, longer := BaseEstimate(kept, lim), BaseEstimate(dropped + kept, lim);
    assert shorter <= longer by {
      TailSum(MessageTokens, dropped, kept, |kept|);
    }
    CalibrateMonotone(shorter, longer, lim.factor);
  }

  lemma CalibrateMonotone(a: nat, b: nat, factor: real)
    requires a <= b && factor >= 0.0
    ensures Calibrate(a, factor) <= Calibrate(b, factor)
  {
    assert (b as real - a as real) * factor >= 0.0;
    assert a as real * factor <= b as real * factor;
  }

  // ------------------------------------------------------------------- truncation

  predicate Truncatable(m: Message) {
    !m.sdk && (m.role == Tool || m.role == User || m.role == System)
  }

  predicate Oversized(m: Message, cap: nat) {
    Truncatable(m) && Tokens.Estimate(m.content) > cap
  }

  function TruncatedMessage(m: Message, cap: nat, note: Note): Message {
    if Oversized(m, cap) then
      var kept := Tokens.Shrink(m.content, cap);
      m.(content := kept + "\n" + note(|m.content|, |kept|))
    else m
  }

  function Truncated(ms: History, cap: nat, note: Note): (r: History)
    ensures |r| == |ms|
  {
    seq(|ms|, i requires 0 <= i < |ms| => TruncatedMessage(ms[i], cap, note))
  }

  method CutText(m: Message, cap: nat, note: Note) returns (cut: bool, r: Message)
    ensures r == TruncatedMessage(m, cap, note)
    ensures cut == Oversized(m, cap)
  {
    cut, r := false, m;
    if Truncatable(m) {
      var tokens := Tokens.EstimateTextTokens(m.content);
      if tokens > cap {
        var kept := Tokens.ShrinkText(m.content, cap);
        cut, r := true, m.(content := kept + "\n" + note(|m.content|, |kept|));
      }
    }
  }

  /** The loop over the history; an untouched history is returned as it is. */
  method CutLongTexts(messages: History, cap: nat, note: Note) returns (changed: bool, newList: History)
    ensures newList == Truncated(messages, cap, note)
    ensures changed <==> exists m :: m in messages && Oversized(m, cap)
    ensures !changed ==> newList == messages
  {
    changed, newList := false, [];
    for i := 0 to |messages|
      invariant newList == Truncated(messages[..i], cap, note)
      invariant !changed ==> newList == messages[..i]
      invariant changed <==> exists m :: m in messages[..i] && Oversized(m, cap)
    {
      var msg := messages[i];
      assert messages[..i + 1] == messages[..i] + [msg];
      var cut, shorter := CutText(msg, cap, note);
      changed := changed || cut;
      newList := newList + [shorter];
    }
    assert messages[..|messages|] == messages;
  }

  /** Truncation only shortens texts: who said it and what it answers stay. */
  lemma TruncatedSkeleton(ms: History, cap: nat, note: Note)
    ensures SameSkeleton(ms, Truncated(ms, cap, note))
  {
  }

  /** Four more characters cost at least one token. */
  lemma FourMoreCharacters(kept: string, tail: string)
    requires kept != "" && |tail| >= 4
    ensures Tokens.Estimate(kept + tail) > Tokens.Estimate(kept)
  {
    var text := kept + tail;
    var n := |kept|;
    Tokens.CjkOfPrefix(kept, tail, n);
    var c := Tokens.CjkTo(text, n);
    assert c <= Tokens.CjkTo(text, n + 1) <= c + 1;
    assert Tokens.CjkTo(text, n + 1) <= Tokens.CjkTo(text, n + 2) <= Tokens.CjkTo(text, n + 1) + 1;
    assert Tokens.CjkTo(text, n + 2) <= Tokens.CjkTo(text, n + 3) <= Tokens.CjkTo(text, n + 2) + 1;
    assert Tokens.CjkTo(text, n + 3) <= Tokens.CjkTo(text, n + 4) <= Tokens.CjkTo(text, n + 3) + 1;
    Tokens.EstimateMonotone(text, n + 4, |text|);
  }

  /** The kept part of a truncated text uses its budget up exactly, so with a note of three
      characters or more the truncated message is always over the cap again. */
  lemma TruncationOvershoots(m: Message, cap: nat, note: Note)
    requires Oversized(m, cap) && cap >= 2
    ensures var kept := Tokens.Shrink(m.content, cap);
            && kept < m.content
            && Tokens.Estimate(kept) == cap
            && (|note(|m.content|, |kept|)| >= 3 ==>
                  Tokens.Estimate(TruncatedMessage(m, cap, note).content) > cap)
  {
    Tokens.ShrinkIsLongestFit(m.content, cap);
    var kept := Tokens.Shrink(m.content, cap);
    Tokens.EstimateOfPrefix(m.content, |kept|);
    assert m.content[..|kept|] == kept;
    var next := Tokens.EstimateTo(m.content, |kept| + 1);
    assert kept != "" ==> next <= Tokens.EstimateTo(m.content, |kept|) + 1;
    var mark := "\n" + note(|m.content|, |kept|);
    assert kept + "\n" + note(|m.content|, |kept|) == kept + mark;
    if |mark| >= 4 {
      FourMoreCharacters(kept, mark);
    }
  }

  // ---------------------------------------------------------------------- emergency

  /** The first index from `k` on that is enough, or the last one there is. */
  function FirstEnough(enough: nat -> bool, count: nat, k: nat): nat
    decreases count - k
  {
    if enough(k) || k + 1 >= count then k else FirstEnough(enough, count, k + 1)
  }

  lemma {:induction false} FirstEnoughIsLeast(enough: nat -> bool, count: nat, k: nat)
    ensures var n := FirstEnough(enough, count, k);
            && k <= n && (n == k || n < count)
            && (enough(n) || n + 1 >= count)
            && forall j: nat | k <= j < n :: !enough(j)
    decreases count - k
  {
    if !(enough(k) || k + 1 >= count) {
      FirstEnoughIsLeast(enough, count, k + 1);
    }
  }

  predicate FitsWithout(ms: History, lim: Limits, k: nat) {
    lim.Valid() && Fits(DropRounds(ms, k), lim)
  }

  function Enough(ms: History, lim: Limits): nat -> bool {
    (k: nat) => FitsWithout(ms, lim, k)
  }

  /** How many oldest rounds have to go. */
  function LeastDrop(ms: History, lim: Limits): nat {
    FirstEnough(Enough(ms, lim), RoundCount(ms), 0)
  }

  /** What an emergency reduction leaves: nothing changes when the request fits, otherwise long
      texts are cut and then whole rounds go, oldest first. */
  function Reduced(ms: History, lim: Limits, note: Note): History
    requires lim.Valid()
  {
    if Fits(ms, lim) then ms
    else
      var cut := Truncated(ms, lim.MessageCap(), note);
      DropRounds(cut, LeastDrop(cut, lim))
  }

  /** k is the least number of oldest rounds to drop; the newest round is never among them. */
  ghost predicate LeastCut(ms: History, lim: Limits, k: nat) {
    && (k == 0 || k < RoundCount(ms))
    && (forall j: nat | j < k :: !FitsWithout(ms, lim, j))
    && (FitsWithout(ms, lim, k) || k + 1 >= RoundCount(ms))
  }

  lemma LeastDropIsLeast(ms: History, lim: Limits)
    ensures LeastCut(ms, lim, LeastDrop(ms, lim))
  {
    var enough := Enough(ms, lim);
    FirstEnoughIsLeast(enough, RoundCount(ms), 0);
    forall j: nat | j < LeastDrop(ms, lim)
      ensures !FitsWithout(ms, lim, j)
    {
      assert !enough(j);
    }
  }

  /** The reduction drops the least number of oldest rounds that makes the request fit, and never
      the newest round. */
  lemma ReducedIsLeast(ms: History, lim: Limits, note: Note) returns (k: nat)
    requires lim.Valid() && !Fits(ms, lim)
    ensures LeastCut(Truncated(ms, lim.MessageCap(), note), lim, k)
    ensures Reduced(ms, lim, note) == DropRounds(Truncated(ms, lim.MessageCap(), note), k)
  {
    var cut := Truncated(ms, lim.MessageCap(), note);
    k := LeastDrop(cut, lim);
    LeastDropIsLeast(cut, lim);
  }

  /** The reduction loop: one oldest round at a time. */
  function DropWhileTooBig(ms: History, lim: Limits): History
    requires lim.Valid()
    decreases RoundCount(ms)
  {
    if Fits(ms, lim) || RoundCount(ms) <= 1 then ms
    else
      DropCounts(ms, 1);
      DropWhileTooBig(DropRounds(ms, 1), lim)
  }

  lemma CountAfterDrop(cut: History, k: nat)
    requires k == 0 || k < RoundCount(cut)
    ensures RoundCount(DropRounds(cut, k)) <= 1 <==> k + 1 >= RoundCount(cut)
  {
    if k < RoundCount(cut) {
      DropCounts(cut, k);
    }
  }

  /** A loop that drops until it may stop, over a chain of histories, stops at the first index that
      is enough. */
  lemma {:induction false} LoopFindsFirst<T(!new)>(loop: T -> T, stops: T -> bool, drop: T -> T, at: nat -> T,
                                                   enough: nat -> bool, count: nat, k: nat)
    requires forall x :: loop(x) == if stops(x) then x else loop(drop(x))
    requires forall j: nat | j == 0 || j < count :: stops(at(j)) <==> enough(j) || j + 1 >= count
    requires forall j: nat | j + 1 < count :: drop(at(j)) == at(j + 1)
    requires k == 0 || k < count
    ensures loop(at(k)) == at(FirstEnough(enough, count, k))
    decreases count - k
  {
    if !(enough(k) || k + 1 >= count) {
      LoopFindsFirst(loop, stops, drop, at, enough, count, k + 1);
    }
  }

  predicate MayStop(ms: History, lim: Limits)
    requires lim.Valid()
  {
    Fits(ms, lim) || RoundCount(ms) <= 1
  }

  function Loop(lim: Limits): History -> History {
    (ms: History) => if lim.Valid() then DropWhileTooBig(ms, lim) else ms
  }

  function Stops(lim: Limits): History -> bool {
    (ms: History) => !lim.Valid() || MayStop(ms, lim)
  }

  function DropFirst(): History -> History {
    (ms: History) => DropRounds(ms, 1)
  }

  function Without(cut: History): nat -> History {
    (k: nat) => DropRounds(cut, k)
  }

  lemma LoopTurn(ms: History, lim: Limits)
    ensures Loop(lim)(ms) == if Stops(lim)(ms) then ms else Loop(lim)(DropFirst()(ms))
  {
  }

  lemma StopsAt(cut: History, lim: Limits, k: nat)
    requires lim.Valid() && (k == 0 || k < RoundCount(cut))
    ensures Stops(lim)(Without(cut)(k)) <==> Enough(cut, lim)(k) || k + 1 >= RoundCount(cut)
  {
    CountAfterDrop(cut, k);
  }

  ghost predicate IsLoop(loop: History -> History, stops: History -> bool, drop: History -> History) {
    forall ms :: loop(ms) == if stops(ms) then ms else loop(drop(ms))
  }

  ghost predicate StopsWhen(stops: History -> bool, at: nat -> History, enough: nat -> bool, count: nat) {
    forall k: nat | k == 0 || k < count :: stops(at(k)) <==> enough(k) || k + 1 >= count
  }

  ghost predicate IsChain(at: nat -> History, drop: History -> History, count: nat) {
    forall k: nat | k + 1 < count :: drop(at(k)) == at(k + 1)
  }

  lemma LoopIsLoop(lim: Limits)
    ensures IsLoop(Loop(lim), Stops(lim), DropFirst())
  {
    forall ms ensures Loop(lim)(ms) == if Stops(lim)(ms) then ms else Loop(lim)(DropFirst()(ms)) {
      LoopTurn(ms, lim);
    }
  }

  lemma LoopStops(cut: History, lim: Limits)
    requires lim.Valid()
    ensures StopsWhen(Stops(lim), Without(cut), Enough(cut, lim), RoundCount(cut))
  {
    forall k: nat | k == 0 || k < RoundCount(cut)
      ensures Stops(lim)(Without(cut)(k)) <==> Enough(cut, lim)(k) || k + 1 >= RoundCount(cut)
    {
      StopsAt(cut, lim, k);
    }
  }

  lemma ChainStep(cut: History, k: nat)
    requires k + 1 < RoundCount(cut)
    ensures DropFirst()(Without(cut)(k)) == Without(cut)(k + 1)
  {
    DropOneMore(cut, k);
  }

  lemma LoopChain(cut: History)
    ensures IsChain(Without(cut), DropFirst(), RoundCount(cut))
  {
    forall k: nat | k + 1 < RoundCount(cut) ensures DropFirst()(Without(cut)(k)) == Without(cut)(k + 1) {
      ChainStep(cut, k);
    }
  }

  lemma LoopFindsLeast(loop: History -> History, stops: History -> bool, drop: History -> History,
                       at: nat -> History, enough: nat -> bool, count: nat)
    requires IsLoop(loop, stops, drop) && StopsWhen(stops, at, enough, count) && IsChain(at, drop, count)
    ensures loop(at(0)) == at(FirstEnough(enough, count, 0))
  {
    LoopFindsFirst(loop, stops, drop, at, enough, count, 0);
  }

  /** The loop stops at the least number of rounds. */
  lemma LoopDropsLeast(cut: History, lim: Limits)
    requires lim.Valid()
    ensures DropWhileTooBig(cut, lim) == DropRounds(cut, LeastDrop(cut, lim))
  {
    LoopIsLoop(lim);
    LoopStops(cut, lim);
    LoopChain(cut);
    LoopFindsLeast(Loop(lim), Stops(lim), DropFirst(), Without(cut), Enough(cut, lim), RoundCount(cut));
    LoopStarts(cut, lim);
  }

  lemma LoopStarts(cut: History, lim: Limits)
    requires lim.Valid()
    ensures Loop(lim)(Without(cut)(0)) == DropWhileTooBig(cut, lim)
  {
    assert Without(cut)(0) == cut;
  }

  lemma ReducedFits(ms: History, lim: Limits, note: Note)
    requires lim.Valid()
    ensures Fits(Reduced(ms, lim, note), lim) || |Split(Reduced(ms, lim, note)).rounds| <= 1
  {
    if !Fits(ms, lim) {
      var cut := Truncated(ms, lim.MessageCap(), note);
      LeastDropIsLeast(cut, lim);
      var k := LeastDrop(cut, lim);
      if k < |Split(cut).rounds| {
        DropCounts(cut, k);
      }
    }
  }

  lemma TruncatedWellFormed(ms: History, cap: nat, note: Note)
    ensures WellFormed(Truncated(ms, cap, note)) <==> WellFormed(ms)
    ensures Owned(Truncated(ms, cap, note)) <==> Owned(ms)
  {
    TruncatedSkeleton(ms, cap, note);
    SkeletonDecides(ms, Truncated(ms, cap, note), {}, {});
  }

  lemma ReducedWellFormed(ms: History, lim: Limits, note: Note)
    requires lim.Valid()
    ensures WellFormed(ms) ==> WellFormed(Reduced(ms, lim, note))
    ensures Owned(ms) ==> Owned(Reduced(ms, lim, note))
  {
    if !Fits(ms, lim) {
      var cut := Truncated(ms, lim.MessageCap(), note);
      TruncatedWellFormed(ms, lim.MessageCap(), note);
      DropWellFormed(cut, LeastDrop(cut, lim));
    }
  }

  // -------------------------------------------------------------------- compression

  /** The summary as a message; a failed summary leaves nothing. */
  function SummaryNote(prefix: string, summary: Option<string>): History {
    match summary
    case None => []
    case Some(text) => [Plain(System, prefix + "\n" + text)]
  }

  predicate Compressible(ms: History) {
    |Split(ms).rounds| > KEEP_ROUNDS
  }

  function NewestRounds(ms: History): seq<History>
    requires Compressible(ms)
  {
    Split(ms).rounds[|Split(ms).rounds| - KEEP_ROUNDS..]
  }

  /** All but the newest rounds replaced by one summary. */
  function Compressed(ms: History, note: History): History {
    if Compressible(ms) then Split(ms).preamble + (note + Flatten(NewestRounds(ms))) else ms
  }

  lemma CompressedShape(ms: History, note: History)
    requires Compressible(ms)
    ensures Compressed(ms, note) == note + Flatten(NewestRounds(ms))
  {
    SplitPartitions(ms);
    var r := note + Flatten(NewestRounds(ms));
    assert [] + r == r;
  }

  lemma NotedRoundsSplit(kept: History, rounds: seq<History>, prefix: string, summary: Option<string>)
    requires rounds != [] && Split(kept) == Partition([], rounds)
    ensures var note := SummaryNote(prefix, summary);
            Split(note + kept) == Partition([], rounds[0 := note + rounds[0]])
  {
    var note := SummaryNote(prefix, summary);
    if summary.Some? {
      SplitPrepend(note[0], kept);
    } else {
      assert note + kept == kept && note + rounds[0] == rounds[0];
    }
  }

  /** A compression leaves exactly the newest rounds, verbatim, behind at most one summary, and
      compressing again changes nothing. */
  lemma CompressedKeepsNewest(ms: History, prefix: string, summary: Option<string>, again: History)
    requires Compressible(ms)
    ensures var note := SummaryNote(prefix, summary);
            var newest := NewestRounds(ms);
            var r := Compressed(ms, note);
            && |newest| == KEEP_ROUNDS
            && r == note + Flatten(newest)
            && Split(r) == Partition([], newest[0 := note + newest[0]])
            && Compressed(r, again) == r
  {
    CompressedShape(ms, SummaryNote(prefix, summary));
    TailResplits(ms, |Split(ms).rounds| - KEEP_ROUNDS);
    NotedRoundsSplit(Flatten(NewestRounds(ms)), NewestRounds(ms), prefix, summary);
  }

  /** Nothing newer than the replaced rounds is touched: the kept part is a suffix of the history. */
  lemma CompressedIsSuffix(ms: History)
    requires Compressible(ms)
    ensures exists replaced :: ms == replaced + Flatten(NewestRounds(ms))
    ensures TurnHead(Flatten(NewestRounds(ms)))
  {
    TailStartsTurn(ms, |Split(ms).rounds| - KEEP_ROUNDS);
  }

  /** Call-free messages in front change nothing about the groups behind them. */
  lemma NoteInFront(note: History, ms: History)
    requires forall m | m in note :: m.role == System
    ensures WellFormed(ms) ==> WellFormed(note + ms)
    ensures Owned(ms) ==> Owned(note + ms)
  {
    CallFreeWellFormed(note);
    OwnedConcat(note, ms, {});
    if WellFormed(ms) {
      WellFormedConcat(note, ms);
    }
    if Owned(ms) {
      OwnedHasNoOrphanStart(ms);
      OwnedFresh(ms, {}, OwnerAfterAll({}, note));
    }
  }

  lemma NewestWellFormed(ms: History)
    requires Compressible(ms)
    ensures WellFormed(ms) ==> WellFormed(Flatten(NewestRounds(ms)))
    ensures Owned(ms) ==> Owned(Flatten(NewestRounds(ms)))
  {
    var k := |Split(ms).rounds| - KEEP_ROUNDS;
    if WellFormed(ms) {
      TailWellFormed(ms, k);
    }
    if Owned(ms) {
      TailOwned(ms, k);
    }
  }

  lemma CompressedWellFormed(ms: History, prefix: string, summary: Option<string>)
    ensures WellFormed(ms) ==> WellFormed(Compressed(ms, SummaryNote(prefix, summary)))
    ensures Owned(ms) ==> Owned(Compressed(ms, SummaryNote(prefix, summary)))
  {
    if Compressible(ms) {
      var note := SummaryNote(prefix, summary);
      var kept := Flatten(NewestRounds(ms));
      CompressedShape(ms, note);
      NewestWellFormed(ms);
      NoteInFront(note, kept);
    }
  }

  // ------------------------------------------------------ when a summary is asked for

  /** Some text a transcript would carry; tool results are left out of it. */
  predicate HasText(ms: History) {
    exists m :: m in ms && m.role != Tool && m.content != ""
  }

  /** The first k rounds. */
  function Oldest(ms: History, k: nat): History
    requires k <= RoundCount(ms)
  {
    Flatten(Split(ms).rounds[..k])
  }

  /** A compression sends a summarizing request if it has something to replace and that has any text. */
  predicate AsksSummary(ms: History) {
    Compressible(ms) && HasText(Oldest(ms, RoundCount(ms) - KEEP_ROUNDS))
  }

  lemma CompressedAsksNothing(ms: History, prefix: string, summary: Option<string>)
    ensures !Compressible(Compressed(ms, SummaryNote(prefix, summary)))
  {
    if Compressible(ms) {
      CompressedKeepsNewest(ms, prefix, summary, []);
    }
  }

  lemma {:induction false} MoreRoundsMoreText(rounds: seq<History>, j: nat, k: nat)
    requires j <= k <= |rounds|
    ensures HasText(Flatten(rounds[..j])) ==> HasText(Flatten(rounds[..k]))
    ensures HasText(Flatten(rounds[j..k])) ==> HasText(Flatten(rounds[..k]))
  {
    assert rounds[..k] == rounds[..j] + rounds[j..k];
    FlattenConcat(rounds[..j], rounds[j..k]);
  }

  function Cutter(cap: nat, cutNote: Note): Message -> Message {
    (m: Message) => TruncatedMessage(m, cap, cutNote)
  }

  lemma CutterMaps(ms: History, cap: nat, cutNote: Note)
    ensures Truncated(ms, cap, cutNote) == MapAll(Cutter(cap, cutNote), ms)
    ensures KeepsRoles(Cutter(cap, cutNote))
  {
  }

  lemma CutTextIsText(m: Message, cap: nat, cutNote: Note)
    ensures (TruncatedMessage(m, cap, cutNote).content != "") <==> m.content != ""
  {
    if Oversized(m, cap) {
      assert Tokens.Estimate("") == 0;
    }
  }

  lemma CutHasText(ms: History, cap: nat, cutNote: Note)
    ensures HasText(MapAll(Cutter(cap, cutNote), ms)) <==> HasText(ms)
  {
    var f := Cutter(cap, cutNote);
    forall m ensures f(m).content != "" <==> m.content != "" { CutTextIsText(m, cap, cutNote); }
    if HasText(ms) {
      var i :| 0 <= i < |ms| && ms[i].role != Tool && ms[i].content != "";
      assert MapAll(f, ms)[i] == f(ms[i]);
    }
  }

  lemma TruncatedAsksTheSame(ms: History, cap: nat, cutNote: Note)
    ensures Compressible(Truncated(ms, cap, cutNote)) <==> Compressible(ms)
    ensures AsksSummary(Truncated(ms, cap, cutNote)) <==> AsksSummary(ms)
  {
    var f := Cutter(cap, cutNote);
    CutterMaps(ms, cap, cutNote);
    SplitMaps(f, ms);
    if Compressible(ms) {
      var rounds, k := Split(ms).rounds, RoundCount(ms) - KEEP_ROUNDS;
      assert MapRounds(f, rounds)[..k] == MapRounds(f, rounds[..k]);
      MapFlatten(f, rounds[..k]);
      CutHasText(Flatten(rounds[..k]), cap, cutNote);
    }
  }

  lemma DroppedAsksNoMore(ms: History)
    ensures Compressible(DropRounds(ms, 1)) ==> Compressible(ms)
    ensures AsksSummary(DropRounds(ms, 1)) ==> AsksSummary(ms)
  {
    var rounds := Split(ms).rounds;
    if |rounds| > 1 {
      DroppedSplits(ms, 1);
      if |rounds| > KEEP_ROUNDS {
        var k := |rounds| - KEEP_ROUNDS;
        assert rounds[1..][..k - 1] == rounds[1..k];
        MoreRoundsMoreText(rounds, 1, k);
      }
    }
  }

  // ---------------------------------------------------------------- the whole check

  /** The texts a check may have to ask for: each is an arbitrary answer or a failure. */
  datatype Summaries = Summaries(handOff: Option<string>, forced: Option<string>, automatic: Option<string>)

  datatype Prefixes = Prefixes(handOff: string, summary: string)

  function HandedOver(ms: History, prefix: string, summary: Option<string>): History {
    SummaryNote(prefix, summary) + ms
  }

  /** The deferred work a request carries out first. */
  function Prepared(ms: History, handOff: bool, compaction: bool, p: Prefixes, s: Summaries): History {
    var prepared := if handOff then HandedOver(ms, p.handOff, s.handOff) else ms;
    if compaction then Compressed(prepared, SummaryNote(p.summary, s.forced)) else prepared
  }

  /** The check in front of a request: emergency at 95%, compression at 80%, nothing below. */
  function Preflight(ms: History, lim: Limits, note: Note, p: Prefixes, s: Summaries): History
    requires lim.Valid()
  {
    var estimate := RequestEstimate(ms, lim);
    if 100 * estimate >= 95 * lim.window then Reduced(ms, lim, note)
    else if 100 * estimate >= 80 * lim.window then
      Reduced(Compressed(ms, SummaryNote(p.summary, s.automatic)), lim, note)
    else ms
  }

  /** The check after a request: an expensive answer or a long prompt triggers a compression. */
  predicate Triggered(roundMaxTotal: nat, lastPrompt: nat, lim: Limits) {
    || (roundMaxTotal > 0 && 100 * roundMaxTotal >= 20 * lim.window)
    || (lastPrompt > 0 && 100 * lastPrompt >= 80 * lim.window)
  }

  function AfterRequest(ms: History, triggered: bool, lim: Limits, note: Note, p: Prefixes, s: Summaries): History
    requires lim.Valid()
  {
    if triggered then Reduced(Compressed(ms, SummaryNote(p.summary, s.automatic)), lim, note) else ms
  }

  /** Below 80% of the window, or at most 85% of it, or down to a single round. */
  predicate WithinWindow(ms: History, lim: Limits)
    requires lim.Valid()
  {
    || 100 * RequestEstimate(ms, lim) < 80 * lim.window
    || RequestEstimate(ms, lim) <= lim.Target()
    || |Split(ms).rounds| <= 1
  }

  /** Every request that is sent is within the window, as far as whole rounds allow. */
  lemma PreflightFits(ms: History, lim: Limits, note: Note, p: Prefixes, s: Summaries)
    requires lim.Valid()
    ensures WithinWindow(Preflight(ms, lim, note, p, s), lim)
  {
    ReducedFits(ms, lim, note);
    ReducedFits(Compressed(ms, SummaryNote(p.summary, s.automatic)), lim, note);
  }

  lemma HandedOverCounts(ms: History, prefix: string, summary: Option<string>)
    ensures Compressible(HandedOver(ms, prefix, summary)) <==> Compressible(ms)
  {
    if summary.Some? {
      SplitPrepend(SummaryNote(prefix, summary)[0], ms);
    } else {
      assert [] + ms == ms;
    }
  }

  lemma HandOffWellFormed(ms: History, prefix: string, summary: Option<string>)
    ensures WellFormed(ms) ==> WellFormed(HandedOver(ms, prefix, summary))
    ensures Owned(ms) ==> Owned(HandedOver(ms, prefix, summary))
  {
    NoteInFront(SummaryNote(prefix, summary), ms);
  }

  /** No deferred work and no check ever breaks a tool-call group or orphans a result. */
  lemma PreparedWellFormed(ms: History, handOff: bool, compaction: bool, p: Prefixes, s: Summaries)
    ensures WellFormed(ms) ==> WellFormed(Prepared(ms, handOff, compaction, p, s))
    ensures Owned(ms) ==> Owned(Prepared(ms, handOff, compaction, p, s))
  {
    HandOffWellFormed(ms, p.handOff, s.handOff);
    CompressedWellFormed(if handOff then HandedOver(ms, p.handOff, s.handOff) else ms, p.summary, s.forced);
  }

  lemma CompressReduceWellFormed(ms: History, lim: Limits, note: Note, prefix: string, summary: Option<string>)
    requires lim.Valid()
    ensures WellFormed(ms) ==> WellFormed(Reduced(Compressed(ms, SummaryNote(prefix, summary)), lim, note))
    ensures Owned(ms) ==> Owned(Reduced(Compressed(ms, SummaryNote(prefix, summary)), lim, note))
  {
    CompressedWellFormed(ms, prefix, summary);
    ReducedWellFormed(Compressed(ms, SummaryNote(prefix, summary)), lim, note);
  }

  lemma PreflightWellFormed(ms: History, lim: Limits, note: Note, p: Prefixes, s: Summaries)
    requires lim.Valid()
    ensures WellFormed(ms) ==> WellFormed(Preflight(ms, lim, note, p, s))
    ensures Owned(ms) ==> Owned(Preflight(ms, lim, note, p, s))
  {
    var estimate := RequestEstimate(ms, lim);
    if 100 * estimate >= 95 * lim.window {
      ReducedWellFormed(ms, lim, note);
    } else if 100 * estimate >= 80 * lim.window {
      CompressReduceWellFormed(ms, lim, note, p.summary, s.automatic);
    }
  }

  lemma AfterRequestWellFormed(ms: History, triggered: bool, lim: Limits, note: Note, p: Prefixes, s: Summaries)
    requires lim.Valid()
    ensures WellFormed(ms) ==> WellFormed(AfterRequest(ms, triggered, lim, note, p, s))
    ensures Owned(ms) ==> Owned(AfterRequest(ms, triggered, lim, note, p, s))
  {
    CompressReduceWellFormed(ms, lim, note, p.summary, s.automatic);
  }
}
