/** Splitting a history into rounds, and the cuts between rounds. */
module Rounds {
  import opened Messages

  /** The newest rounds a compression keeps verbatim. */
  const KEEP_ROUNDS := 10

  datatype SplitState = SplitState(pending: History, rounds: seq<History>)

  datatype Partition = Partition(preamble: History, rounds: seq<History>)

  function Flatten(rounds: seq<History>): History {
    if rounds == [] then [] else rounds[0] + Flatten(rounds[1..])
  }

  predicate EndsWithUser(round: History) {
    round != [] && round[|round| - 1].role == User
  }

  function ExtendLast(rounds: seq<History>, more: History): (r: seq<History>)
    requires rounds != []
    ensures |r| == |rounds|
  {
    rounds[|rounds| - 1 := rounds[|rounds| - 1] + more]
  }

  /** One message of the splitting scan. */
  function SplitStep(st: SplitState, m: Message): SplitState {
    if m.role == System then
      SplitState(st.pending + [m], st.rounds)
    else if m.role == User then
      if st.rounds != [] && st.pending == [] && EndsWithUser(st.rounds[|st.rounds| - 1])
      then SplitState([], ExtendLast(st.rounds, [m]))
      else SplitState([], st.rounds + [st.pending + [m]])
    else if st.rounds != [] then
      SplitState([], ExtendLast(st.rounds, st.pending + [m]))
    else
      SplitState([], [st.pending + [m]])
  }

  /** The scan after the first n messages. */
  function ScanTo(ms: History, n: nat): SplitState
    requires n <= |ms|
  {
    if n == 0 then SplitState([], []) else SplitStep(ScanTo(ms, n - 1), ms[n - 1])
  }

  function Scan(ms: History): SplitState {
    ScanTo(ms, |ms|)
  }

  /** System messages left over at the end belong to the last round, or form the preamble. */
  function Finish(st: SplitState): Partition {
    if st.pending == [] then Partition([], st.rounds)
    else if st.rounds != [] then Partition([], ExtendLast(st.rounds, st.pending))
    else Partition(st.pending, [])
  }

  function Split(ms: History): Partition {
    Finish(Scan(ms))
  }

  /** A turn: system notes, then a user message, then whatever followed. */
  predicate TurnHead(round: History) {
    round != [] && (round[0].role == User || (round[0].role == System && TurnHead(round[1..])))
  }

  predicate AllSystem(notes: History) {
    forall i | 0 <= i < |notes| :: notes[i].role == System
  }

  // ------------------------------------------------------------- scan invariant

  lemma {:induction false} FlattenConcat(a: seq<History>, b: seq<History>)
    ensures Flatten(a + b) == Flatten(a) + Flatten(b)
  {
    if a == [] {
      assert a + b == b;
    } else {
      assert (a + b)[1..] == a[1..] + b;
      FlattenConcat(a[1..], b);
    }
  }

  lemma FlattenExtendLast(rounds: seq<History>, more: History)
    requires rounds != []
    ensures Flatten(ExtendLast(rounds, more)) == Flatten(rounds) + more
  {
    var n := |rounds| - 1;
    var body, last := rounds[..n], rounds[n];
    assert rounds == body + [last];
    assert ExtendLast(rounds, more) == body + [last + more];
    FlattenConcat(body, [last]);
    FlattenConcat(body, [last + more]);
    assert Flatten([last]) == last && Flatten([last + more]) == last + more;
  }

  lemma {:induction false} TurnHeadExtends(round: History, more: History)
    requires TurnHead(round)
    ensures TurnHead(round + more)
  {
    if round[0].role != User {
      TurnHeadExtends(round[1..], more);
      assert (round + more)[1..] == round[1..] + more;
    }
  }

  lemma {:induction false} SystemsThenUser(notes: History, m: Message)
    requires AllSystem(notes) && m.role == User
    ensures TurnHead(notes + [m])
  {
    if notes != [] {
      SystemsThenUser(notes[1..], m);
      assert (notes + [m])[1..] == notes[1..] + [m];
    }
  }

  /** A step only touches the newest round, so it commutes with dropping older ones. */
  lemma StepLocal(st: SplitState, m: Message, k: nat)
    requires k < |st.rounds|
    ensures k < |SplitStep(st, m).rounds|
    ensures SplitStep(SplitState(st.pending, st.rounds[k..]), m) ==
            SplitState(SplitStep(st, m).pending, SplitStep(st, m).rounds[k..])
  {
    var tail := st.rounds[k..];
    assert tail[|tail| - 1] == st.rounds[|st.rounds| - 1];
    assert ExtendLast(st.rounds, [m])[k..] == ExtendLast(tail, [m]);
    assert ExtendLast(st.rounds, st.pending + [m])[k..] == ExtendLast(tail, st.pending + [m]);
    assert (st.rounds + [st.pending + [m]])[k..] == tail + [st.pending + [m]];
  }

  lemma StepKeepsContent(st: SplitState, m: Message)
    ensures Flatten(SplitStep(st, m).rounds) + SplitStep(st, m).pending == Flatten(st.rounds) + st.pending + [m]
  {
    var withNew := st.rounds + [st.pending + [m]];
    assert Flatten(withNew) == Flatten(st.rounds) + (st.pending + [m]) by {
      FlattenConcat(st.rounds, [st.pending + [m]]);
      assert Flatten([st.pending + [m]]) == st.pending + [m];
    }
    if m.role == System {
    } else if SplitStep(st, m).rounds == withNew {
    } else if m.role == User {
      FlattenExtendLast(st.rounds, [m]);
    } else if st.rounds != [] {
      FlattenExtendLast(st.rounds, st.pending + [m]);
    }
  }

  ghost predicate Scanned(st: SplitState, ms: History) {
    && Flatten(st.rounds) + st.pending == ms
    && AllSystem(st.pending)
    && (forall k | 0 <= k < |st.rounds| :: st.rounds[k] != [])
    && (forall k | 1 <= k < |st.rounds| :: TurnHead(st.rounds[k]))
  }

  lemma StepKeepsShape(st: SplitState, m: Message)
    requires AllSystem(st.pending)
    requires forall k | 1 <= k < |st.rounds| :: TurnHead(st.rounds[k])
    ensures forall k | 1 <= k < |SplitStep(st, m).rounds| :: TurnHead(SplitStep(st, m).rounds[k])
  {
    if m.role == User {
      SystemsThenUser(st.pending, m);
    }
    if |st.rounds| > 1 {
      TurnHeadExtends(st.rounds[|st.rounds| - 1], [m]);
      TurnHeadExtends(st.rounds[|st.rounds| - 1], st.pending + [m]);
    }
  }

  lemma StepKeepsScanned(st: SplitState, ms: History, m: Message)
    requires Scanned(st, ms)
    ensures Scanned(SplitStep(st, m), ms + [m])
  {
    StepKeepsContent(st, m);
    StepKeepsShape(st, m);
  }

  lemma {:induction false} ScanInvariant(ms: History, n: nat)
    requires n <= |ms|
    ensures Scanned(ScanTo(ms, n), ms[..n])
  {
    if n > 0 {
      ScanInvariant(ms, n - 1);
      StepKeepsScanned(ScanTo(ms, n - 1), ms[..n - 1], ms[n - 1]);
      assert ms[..n - 1] + [ms[n - 1]] == ms[..n];
    }
  }

  lemma {:induction false} ScanPrefix(a: History, b: History, n: nat)
    requires n <= |a|
    ensures ScanTo(a + b, n) == ScanTo(a, n)
  {
    if n > 0 {
      ScanPrefix(a, b, n - 1);
    }
  }

  lemma ScanAppend(ms: History, m: Message)
    ensures Scan(ms + [m]) == SplitStep(Scan(ms), m)
  {
    ScanPrefix(ms, [m], |ms|);
  }

  lemma {:induction false} ScanSystems(notes: History, n: nat)
    requires AllSystem(notes) && n <= |notes|
    ensures ScanTo(notes, n) == SplitState(notes[..n], [])
  {
    if n > 0 {
      ScanSystems(notes, n - 1);
      assert notes[..n - 1] + [notes[n - 1]] == notes[..n];
    }
  }

  /** Scanning the text of the newest rounds finds exactly these rounds again. */
  ghost predicate Rescans(st: SplitState, k: nat)
    requires k < |st.rounds|
  {
    Scan(Flatten(st.rounds[k..]) + st.pending) == SplitState(st.pending, st.rounds[k..])
  }

  lemma StepRescans(st: SplitState, m: Message, k: nat)
    requires k < |st.rounds| && Rescans(st, k)
    ensures k < |SplitStep(st, m).rounds| && Rescans(SplitStep(st, m), k)
  {
    StepLocal(st, m, k);
    var tail := SplitState(st.pending, st.rounds[k..]);
    StepKeepsContent(tail, m);
    ScanAppend(Flatten(tail.rounds) + tail.pending, m);
  }

  lemma NewRoundRescans(st: SplitState, m: Message)
    requires AllSystem(st.pending) && SplitStep(st, m).rounds == st.rounds + [st.pending + [m]]
    ensures Rescans(SplitStep(st, m), |st.rounds|)
  {
    var newest := st.pending + [m];
    assert (st.rounds + [newest])[|st.rounds|..] == [newest];
    assert Flatten([newest]) + [] == newest;
    ScanSystems(st.pending, |st.pending|);
    assert st.pending[..|st.pending|] == st.pending;
    ScanAppend(st.pending, m);
    assert [] + [newest] == [newest];
  }

  lemma {:induction false} ScanTail(ms: History, n: nat, k: nat)
    requires n <= |ms| && k < |ScanTo(ms, n).rounds|
    ensures Rescans(ScanTo(ms, n), k)
  {
    var st := ScanTo(ms, n - 1);
    if k < |st.rounds| {
      ScanTail(ms, n - 1, k);
      StepRescans(st, ms[n - 1], k);
    } else {
      ScanInvariant(ms, n - 1);
      assert st.rounds == [] ==> [] + [st.pending + [ms[n - 1]]] == [st.pending + [ms[n - 1]]];
      NewRoundRescans(st, ms[n - 1]);
    }
  }

  // ------------------------------------------------------------ what Split means

  lemma FinishKeeps(st: SplitState, ms: History)
    requires Scanned(st, ms)
    ensures Finish(st).preamble + Flatten(Finish(st).rounds) == ms
    ensures forall k | 0 <= k < |Finish(st).rounds| :: Finish(st).rounds[k] != []
    ensures forall k | 1 <= k < |Finish(st).rounds| :: TurnHead(Finish(st).rounds[k])
  {
    if st.pending != [] && st.rounds != [] {
      FlattenExtendLast(st.rounds, st.pending);
      if |st.rounds| > 1 {
        TurnHeadExtends(st.rounds[|st.rounds| - 1], st.pending);
      }
    }
  }

  /** Preamble and rounds are the history, cut in pieces; only a history without rounds has a preamble. */
  lemma SplitPartitions(ms: History)
    ensures Split(ms).preamble + Flatten(Split(ms).rounds) == ms
    ensures Split(ms).preamble != [] ==> Split(ms).rounds == []
    ensures AllSystem(Split(ms).preamble)
    ensures forall k | 0 <= k < |Split(ms).rounds| :: Split(ms).rounds[k] != []
    ensures forall k | 1 <= k < |Split(ms).rounds| :: TurnHead(Split(ms).rounds[k])
  {
    ScanInvariant(ms, |ms|);
    assert ms[..|ms|] == ms;
    FinishKeeps(Scan(ms), ms);
  }

  lemma FinishTail(st: SplitState, k: nat)
    requires k < |st.rounds| && Rescans(st, k)
    ensures k < |Finish(st).rounds|
    ensures Split(Flatten(Finish(st).rounds[k..])) == Partition([], Finish(st).rounds[k..])
  {
    var tail := st.rounds[k..];
    assert tail[|tail| - 1] == st.rounds[|st.rounds| - 1];
    if st.pending != [] {
      assert ExtendLast(st.rounds, st.pending)[k..] == ExtendLast(tail, st.pending);
      FlattenExtendLast(tail, st.pending);
    } else {
      assert Flatten(tail) + [] == Flatten(tail);
    }
  }

  /** Splitting what is left behind the first k rounds yields exactly the remaining rounds. */
  lemma TailResplits(ms: History, k: nat)
    requires k < |Split(ms).rounds|
    ensures Split(Flatten(Split(ms).rounds[k..])) == Partition([], Split(ms).rounds[k..])
  {
    ScanTail(ms, |ms|, k);
    FinishTail(Scan(ms), k);
  }

  /** A round boundary is never inside a tool-call group. */
  lemma TailStartsTurn(ms: History, k: nat)
    requires 1 <= k < |Split(ms).rounds|
    ensures TurnHead(Flatten(Split(ms).rounds[k..]))
    ensures ms == Flatten(Split(ms).rounds[..k]) + Flatten(Split(ms).rounds[k..])
  {
    var rounds := Split(ms).rounds;
    SplitPartitions(ms);
    TurnHeadExtends(rounds[k], Flatten(rounds[k..][1..]));
    assert rounds[..k] + rounds[k..] == rounds;
    FlattenConcat(rounds[..k], rounds[k..]);
  }

  lemma TailWellFormed(ms: History, k: nat)
    requires WellFormed(ms) && 1 <= k < |Split(ms).rounds|
    ensures WellFormed(Flatten(Split(ms).rounds[k..]))
  {
    TailStartsTurn(ms, k);
    WellFormedCut(Flatten(Split(ms).rounds[..k]), Flatten(Split(ms).rounds[k..]));
  }

  lemma TailOwned(ms: History, k: nat)
    requires Owned(ms) && 1 <= k < |Split(ms).rounds|
    ensures Owned(Flatten(Split(ms).rounds[k..]))
  {
    TailStartsTurn(ms, k);
    OwnedCut(Flatten(Split(ms).rounds[..k]), Flatten(Split(ms).rounds[k..]));
  }

  function Front(s: Message, rounds: seq<History>): (r: seq<History>)
    requires rounds != []
    ensures |r| == |rounds|
  {
    rounds[0 := [s] + rounds[0]]
  }

  lemma FrontExtend(s: Message, rounds: seq<History>, more: History)
    requires rounds != []
    ensures ExtendLast(Front(s, rounds), more) == Front(s, ExtendLast(rounds, more))
  {
    var n := |rounds| - 1;
    if n == 0 {
      assert ([s] + rounds[0]) + more == [s] + (rounds[0] + more);
    } else {
      assert Front(s, rounds)[n] == rounds[n] && ExtendLast(rounds, more)[0] == rounds[0];
    }
    assert forall i | 0 <= i < |rounds| ::
             ExtendLast(Front(s, rounds), more)[i] == Front(s, ExtendLast(rounds, more))[i];
  }

  function Fronted(s: Message, st: SplitState): SplitState {
    if st.rounds == [] then SplitState([s] + st.pending, []) else SplitState(st.pending, Front(s, st.rounds))
  }

  lemma StepFronted(s: Message, st: SplitState, m: Message)
    requires s.role == System
    ensures SplitStep(Fronted(s, st), m) == Fronted(s, SplitStep(st, m))
  {
    if st.rounds != [] {
      var n := |st.rounds| - 1;
      assert EndsWithUser(Front(s, st.rounds)[n]) <==> EndsWithUser(st.rounds[n]);
      FrontExtend(s, st.rounds, [m]);
      FrontExtend(s, st.rounds, st.pending + [m]);
      assert Front(s, st.rounds) + [st.pending + [m]] == Front(s, st.rounds + [st.pending + [m]]);
    } else {
      assert [s] + (st.pending + [m]) == [s] + st.pending + [m];
    }
  }

  /** A system message put in front joins the first round and changes no other. */
  lemma {:induction false} ScanPrepend(s: Message, ms: History, n: nat)
    requires s.role == System && n <= |ms|
    ensures ScanTo([s] + ms, n + 1) == Fronted(s, ScanTo(ms, n))
  {
    if n == 0 {
      assert ScanTo([s] + ms, 0) == SplitState([], []);
    } else {
      ScanPrepend(s, ms, n - 1);
      StepFronted(s, ScanTo(ms, n - 1), ms[n - 1]);
    }
  }

  lemma SplitPrepend(s: Message, ms: History)
    requires s.role == System
    ensures |Split([s] + ms).rounds| == |Split(ms).rounds|
    ensures Split(ms).rounds != [] ==>
              Split([s] + ms) == Partition([], Front(s, Split(ms).rounds))
  {
    ScanPrepend(s, ms, |ms|);
    var st := Scan(ms);
    if st.rounds != [] && st.pending != [] {
      FrontExtend(s, st.rounds, st.pending);
    }
  }

  function RoundCount(ms: History): nat {
    |Split(ms).rounds|
  }

  // ------------------------------------------------------- rounds as messages come in

  predicate AllUsers(ms: History) {
    forall m | m in ms :: m.role == User
  }

  /** The next user message joins the round it finds. */
  predicate AwaitsAnswer(st: SplitState) {
    st.pending == [] && st.rounds != [] && EndsWithUser(st.rounds[|st.rounds| - 1])
  }

  /** One more message opens at most one round, and changes none but the newest. */
  lemma AppendCounts(ms: History, m: Message)
    ensures RoundCount(ms) <= RoundCount(ms + [m]) <= RoundCount(ms) + 1
    ensures m.role != User && ms != [] && RoundCount(ms) > 0 ==> RoundCount(ms + [m]) == RoundCount(ms)
    ensures RoundCount(ms) > 0 ==>
              Split(ms + [m]).rounds[..RoundCount(ms) - 1] == Split(ms).rounds[..RoundCount(ms) - 1]
  {
    ScanAppend(ms, m);
  }

  lemma UserCounts(ms: History, m: Message)
    requires m.role == User
    ensures AwaitsAnswer(Scan(ms + [m]))
    ensures AwaitsAnswer(Scan(ms)) ==> RoundCount(ms + [m]) == RoundCount(ms)
    ensures !AwaitsAnswer(Scan(ms)) ==> RoundCount(ms + [m]) == RoundCount(ms) + 1
  {
    ScanAppend(ms, m);
  }

  /** What some user messages make of the rounds of a history. */
  ghost predicate UsersAdded(ms: History, more: History, some: bool) {
    var n := RoundCount(ms);
    && n <= RoundCount(more) <= n + 1
    && (n > 0 ==> Split(more).rounds[..n - 1] == Split(ms).rounds[..n - 1])
    && (some ==> AwaitsAnswer(Scan(more)))
    && (some && !AwaitsAnswer(Scan(ms)) ==> RoundCount(more) == n + 1)
    && (AwaitsAnswer(Scan(ms)) ==> RoundCount(more) == n)
    && (!some ==> more == ms)
  }

  lemma OneUserMore(ms: History, more: History, some: bool, m: Message)
    requires UsersAdded(ms, more, some) && m.role == User
    ensures UsersAdded(ms, more + [m], true)
  {
    UserCounts(more, m);
    AppendCounts(more, m);
    if RoundCount(ms) > 0 {
      SamePrefix(Split(more + [m]).rounds, Split(more).rounds, RoundCount(ms) - 1);
    }
  }

  /** User messages in a row are one round at most. */
  lemma {:induction false} UsersCount(ms: History, users: History)
    requires AllUsers(users)
    ensures UsersAdded(ms, ms + users, users != [])
    decreases |users|
  {
    if users == [] {
      assert ms + users == ms;
    } else {
      var fewer, m := users[..|users| - 1], users[|users| - 1];
      UsersCount(ms, fewer);
      OneUserMore(ms, ms + fewer, fewer != [], m);
      assert ms + users == (ms + fewer) + [m];
    }
  }

  lemma SamePrefix<T>(a: seq<T>, b: seq<T>, k: nat)
    requires k < |b| <= |a| && a[..|b| - 1] == b[..|b| - 1]
    ensures a[..k] == b[..k]
  {
    assert a[..k] == a[..|b| - 1][..k] && b[..k] == b[..|b| - 1][..k];
  }

  // --------------------------------------------------------------- cuts by round

  /** The history without its k oldest rounds; the newest round always stays. */
  function DropRounds(ms: History, k: nat): History {
    var rounds := Split(ms).rounds;
    if k == 0 || |rounds| <= 1 then ms
    else if k < |rounds| then Flatten(rounds[k..])
    else Flatten(rounds[|rounds| - 1..])
  }

  /** What is left after dropping k rounds splits into exactly the rounds that were left. */
  lemma DroppedSplits(ms: History, k: nat)
    requires 1 <= k < |Split(ms).rounds|
    ensures Split(DropRounds(ms, k)) == Partition([], Split(ms).rounds[k..])
  {
    TailResplits(ms, k);
  }

  lemma DropCounts(ms: History, k: nat)
    requires k < RoundCount(ms)
    ensures RoundCount(DropRounds(ms, k)) == RoundCount(ms) - k
  {
    if k > 0 {
      DroppedSplits(ms, k);
    }
  }

  /** Dropping rounds one at a time is dropping them at once. */
  lemma DropOneMore(ms: History, k: nat)
    requires k < RoundCount(ms)
    ensures DropRounds(DropRounds(ms, k), 1) == DropRounds(ms, k + 1)
  {
    var rounds := Split(ms).rounds;
    if k > 0 && |rounds| > 1 {
      TailResplits(ms, k);
      if k + 1 < |rounds| {
        assert rounds[k..][1..] == rounds[k + 1..];
      }
    }
  }

  lemma DropKeepsNewest(ms: History, k: nat)
    requires Split(ms).rounds != []
    ensures Split(DropRounds(ms, k)).rounds != []
    ensures var rounds := Split(ms).rounds;
            var left := Split(DropRounds(ms, k)).rounds;
            left == rounds[if k < |rounds| then k else |rounds| - 1..]
    ensures exists dropped :: ms == dropped + DropRounds(ms, k)
  {
    var rounds := Split(ms).rounds;
    if k == 0 || |rounds| <= 1 {
      assert ms == [] + ms;
    } else {
      var j := if k < |rounds| then k else |rounds| - 1;
      TailResplits(ms, j);
      TailStartsTurn(ms, j);
    }
  }

  lemma DropWellFormed(ms: History, k: nat)
    ensures WellFormed(ms) ==> WellFormed(DropRounds(ms, k))
    ensures Owned(ms) ==> Owned(DropRounds(ms, k))
  {
    var rounds := Split(ms).rounds;
    if k > 0 && |rounds| > 1 {
      var j := if k < |rounds| then k else |rounds| - 1;
      if WellFormed(ms) {
        TailWellFormed(ms, j);
      }
      if Owned(ms) {
        TailOwned(ms, j);
      }
    }
  }

  // ------------------------------------------------------- changing messages in place

  function MapAll(f: Message -> Message, ms: History): (r: History)
    ensures |r| == |ms|
  {
    seq(|ms|, i requires 0 <= i < |ms| => f(ms[i]))
  }

  function MapRounds(f: Message -> Message, rounds: seq<History>): (r: seq<History>)
    ensures |r| == |rounds|
  {
    seq(|rounds|, i requires 0 <= i < |rounds| => MapAll(f, rounds[i]))
  }

  ghost predicate KeepsRoles(f: Message -> Message) {
    forall m :: f(m).role == m.role
  }

  lemma MapConcat(f: Message -> Message, a: History, b: History)
    ensures MapAll(f, a + b) == MapAll(f, a) + MapAll(f, b)
  {
  }

  lemma {:induction false} MapFlatten(f: Message -> Message, rounds: seq<History>)
    ensures Flatten(MapRounds(f, rounds)) == MapAll(f, Flatten(rounds))
  {
    if rounds != [] {
      MapFlatten(f, rounds[1..]);
      assert MapRounds(f, rounds)[1..] == MapRounds(f, rounds[1..]);
      MapConcat(f, rounds[0], Flatten(rounds[1..]));
    }
  }

  lemma MapExtendLast(f: Message -> Message, rounds: seq<History>, more: History)
    requires rounds != []
    ensures MapRounds(f, ExtendLast(rounds, more)) == ExtendLast(MapRounds(f, rounds), MapAll(f, more))
  {
    MapConcat(f, rounds[|rounds| - 1], more);
  }

  function MapState(f: Message -> Message, st: SplitState): SplitState {
    SplitState(MapAll(f, st.pending), MapRounds(f, st.rounds))
  }

  lemma StepMaps(f: Message -> Message, st: SplitState, m: Message)
    requires KeepsRoles(f)
    ensures SplitStep(MapState(f, st), f(m)) == MapState(f, SplitStep(st, m))
  {
    var more := st.pending + [m];
    MapConcat(f, st.pending, [m]);
    assert MapAll(f, [m]) == [f(m)];
    assert MapRounds(f, st.rounds + [more]) == MapRounds(f, st.rounds) + [MapAll(f, more)];
    if st.rounds != [] {
      MapExtendLast(f, st.rounds, [m]);
      MapExtendLast(f, st.rounds, more);
      var last := st.rounds[|st.rounds| - 1];
      assert EndsWithUser(MapAll(f, last)) <==> EndsWithUser(last);
    }
  }

  lemma {:induction false} ScanMaps(f: Message -> Message, ms: History, n: nat)
    requires KeepsRoles(f) && n <= |ms|
    ensures ScanTo(MapAll(f, ms), n) == MapState(f, ScanTo(ms, n))
  {
    if n > 0 {
      ScanMaps(f, ms, n - 1);
      StepMaps(f, ScanTo(ms, n - 1), ms[n - 1]);
    }
  }

  /** Changing messages in place, roles apart, moves no boundary between rounds. */
  lemma SplitMaps(f: Message -> Message, ms: History)
    requires KeepsRoles(f)
    ensures Split(MapAll(f, ms)) == Partition(MapAll(f, Split(ms).preamble), MapRounds(f, Split(ms).rounds))
  {
    ScanMaps(f, ms, |ms|);
    var st := Scan(ms);
    if st.rounds != [] {
      MapExtendLast(f, st.rounds, st.pending);
    }
  }
}
