/** Where rounds begin, without the scan that finds them. */
module RoundBoundaries {
  import opened Messages
  import opened Rounds

  /** A round begins at i, `user` being its first user message, which does not directly follow another one:
      with the system notes directly in front of it, behind something that is no system note. */
  predicate BeginsWith(ms: History, i: nat, user: nat) {
    && 0 < i <= user < |ms|
    && ms[i - 1].role != System && ms[user].role == User
    && (forall k | i <= k < user :: ms[k].role == System)
    && (i == user ==> ms[i - 1].role != User)
  }

  ghost predicate BeginsBy(ms: History, i: nat, n: nat) {
    exists user: nat :: user < n && BeginsWith(ms, i, user)
  }

  /** A round other than the first begins here. */
  ghost predicate Begins(ms: History, i: nat) {
    exists user: nat :: BeginsWith(ms, i, user)
  }

  predicate StartsAt(rounds: seq<History>, k: nat, i: nat) {
    0 < k < |rounds| && |Flatten(rounds[..k])| == i
  }

  ghost predicate StartsSome(rounds: seq<History>, i: nat) {
    exists k: nat :: StartsAt(rounds, k, i)
  }

  /** What the scan has in hand after n messages: some notes at their end, and rounds that end in front. */
  ghost predicate InHand(ms: History, n: nat, st: SplitState) {
    && n <= |ms| && |Flatten(st.rounds)| + |st.pending| == n
    && (forall k | n - |st.pending| <= k < n :: ms[k].role == System)
    && (st.rounds == [] ==> |st.pending| == n)
    && (st.rounds != [] ==>
          && 0 < n - |st.pending| && ms[n - |st.pending| - 1].role != System
          && (EndsWithUser(st.rounds[|st.rounds| - 1]) <==> ms[n - |st.pending| - 1].role == User))
  }

  lemma StepInHand(ms: History, n: nat, st: SplitState)
    requires n < |ms| && InHand(ms, n, st)
    ensures InHand(ms, n + 1, SplitStep(st, ms[n]))
  {
    StepKeepsContent(st, ms[n]);
    var t := SplitStep(st, ms[n]);
    assert |Flatten(t.rounds) + t.pending| == |Flatten(st.rounds) + st.pending + [ms[n]]|;
  }

  lemma {:induction false} ScanInHand(ms: History, n: nat)
    requires n <= |ms|
    ensures InHand(ms, n, ScanTo(ms, n))
  {
    if n > 0 {
      ScanInHand(ms, n - 1);
      StepInHand(ms, n - 1, ScanTo(ms, n - 1));
    }
  }

  lemma ExtendKeepsStarts(rounds: seq<History>, more: History, i: nat)
    requires rounds != []
    ensures StartsSome(ExtendLast(rounds, more), i) <==> StartsSome(rounds, i)
  {
    forall k: nat | k < |rounds| ensures ExtendLast(rounds, more)[..k] == rounds[..k] {
    }
    forall k: nat ensures StartsAt(ExtendLast(rounds, more), k, i) <==> StartsAt(rounds, k, i) {
    }
  }

  lemma NewRoundStarts(rounds: seq<History>, round: History, i: nat)
    ensures StartsSome(rounds + [round], i) <==> StartsSome(rounds, i) || (rounds != [] && i == |Flatten(rounds)|)
  {
    var more := rounds + [round];
    forall k: nat | k <= |rounds| ensures more[..k] == rounds[..k] {
    }
    assert rounds[..|rounds|] == rounds;
    forall k: nat ensures StartsAt(more, k, i) <==>
                          StartsAt(rounds, k, i) || (k == |rounds| && k > 0 && i == |Flatten(rounds)|) {
    }
    if rounds != [] && i == |Flatten(rounds)| {
      assert StartsAt(more, |rounds|, i);
    }
  }

  /** The next message is the first user message of a round that begins here, or of none. */
  lemma NextBegins(ms: History, n: nat, st: SplitState, i: nat)
    requires n < |ms| && InHand(ms, n, st)
    ensures BeginsWith(ms, i, n) <==>
            && ms[n].role == User && st.rounds != [] && i == n - |st.pending|
            && !(st.pending == [] && EndsWithUser(st.rounds[|st.rounds| - 1]))
  {
  }

  lemma StepCuts(ms: History, n: nat, st: SplitState, i: nat)
    requires n < |ms| && InHand(ms, n, st) && (StartsSome(st.rounds, i) <==> BeginsBy(ms, i, n))
    ensures StartsSome(SplitStep(st, ms[n]).rounds, i) <==> BeginsBy(ms, i, n + 1)
  {
    NextBegins(ms, n, st, i);
    assert BeginsBy(ms, i, n + 1) <==> BeginsBy(ms, i, n) || BeginsWith(ms, i, n);
    NewRoundStarts(st.rounds, st.pending + [ms[n]], i);
    assert st.rounds == [] ==> st.rounds + [st.pending + [ms[n]]] == [st.pending + [ms[n]]];
    if st.rounds != [] {
      ExtendKeepsStarts(st.rounds, [ms[n]], i);
      ExtendKeepsStarts(st.rounds, st.pending + [ms[n]], i);
    }
  }

  lemma {:induction false} ScanCuts(ms: History, n: nat, i: nat)
    requires n <= |ms|
    ensures StartsSome(ScanTo(ms, n).rounds, i) <==> BeginsBy(ms, i, n)
  {
    if n > 0 {
      ScanCuts(ms, n - 1, i);
      ScanInHand(ms, n - 1);
      StepCuts(ms, n - 1, ScanTo(ms, n - 1), i);
    }
  }

  /** The rounds of a history begin exactly at its start and where such a user message, with the notes in
      front of it, begins one; there is none exactly when there are only system notes. */
  lemma RoundsBeginExactly(ms: History, i: nat)
    ensures (exists k: nat :: 0 < k < RoundCount(ms) && |Flatten(Split(ms).rounds[..k])| == i) <==> Begins(ms, i)
    ensures RoundCount(ms) == 0 <==> forall m | m in ms :: m.role == System
  {
    ScanCuts(ms, |ms|, i);
    ScanInHand(ms, |ms|);
    var st := Scan(ms);
    if st.rounds != [] {
      ExtendKeepsStarts(st.rounds, st.pending, i);
      var last := ms[|ms| - |st.pending| - 1];
      assert last in ms && last.role != System;
    }
    StartsMeans(Split(ms).rounds, i);
    assert BeginsBy(ms, i, |ms|) <==> Begins(ms, i);
  }

  lemma StartsMeans(rounds: seq<History>, i: nat)
    ensures StartsSome(rounds, i) <==> exists k: nat :: 0 < k < |rounds| && |Flatten(rounds[..k])| == i
  {
    if k: nat :| 0 < k < |rounds| && |Flatten(rounds[..k])| == i {
      assert StartsAt(rounds, k, i);
    }
  }
}
