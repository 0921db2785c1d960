/** The compression as an optimistic commit around an unlocked summarizing request. */
module Compression {
  import opened Common
  import opened Messages
  import opened Rounds
  import opened Window

  /** The history and the version that counts its changes. */
  datatype Store = Store(ms: History, version: nat)

  /** What the first lock section remembers for the second one. */
  datatype Job = Job(older: seq<History>, keep: seq<History>, preamble: History, version: nat)

  function Snapshot(s: Store): Option<Job> {
    var rounds := Split(s.ms).rounds;
    if |rounds| <= KEEP_ROUNDS then None
    else
      var k := |rounds| - KEEP_ROUNDS;
      Some(Job(rounds[..k], rounds[k..], Split(s.ms).preamble, s.version))
  }

  /** What is summarized and what is kept are the whole history, and ten rounds are kept. */
  lemma SnapshotSplits(s: Store)
    ensures Snapshot(s).None? <==> RoundCount(s.ms) <= 10
    ensures Snapshot(s).Some? ==>
              var job := Snapshot(s).value;
              && job.older != [] && |job.keep| == 10 && job.older + job.keep == Split(s.ms).rounds
              && job.preamble == [] && Flatten(job.older) + Flatten(job.keep) == s.ms && job.version == s.version
  {
    var k := RoundCount(s.ms) - KEEP_ROUNDS;
    if k > 0 {
      SplitPartitions(s.ms);
      TailStartsTurn(s.ms, k);
    }
  }

  /** The second lock section: replace the history unless somebody changed it meanwhile. */
  function Commit(s: Store, job: Job, note: History): Store {
    if s.version != job.version then s
    else Store(job.preamble + (note + Flatten(job.keep)), s.version + 1)
  }

  /** What other lock sections may do to the history while the summary is requested. Everything but
      dropping a round and cutting long texts counts as a new version. */
  datatype Change =
    | Rewritten(ms: History)
    | OldestDropped
    | TextsCut(cap: nat, cutNote: Note)

  function Apply(s: Store, c: Change): Store {
    match c
    case Rewritten(ms) => Store(ms, s.version + 1)
    case OldestDropped => Store(DropRounds(s.ms, 1), s.version)
    case TextsCut(cap, cutNote) => Store(Truncated(s.ms, cap, cutNote), s.version)
  }

  function ApplyAll(s: Store, changes: seq<Change>): Store
    decreases |changes|
  {
    if changes == [] then s else ApplyAll(Apply(s, changes[0]), changes[1..])
  }

  lemma {:induction false} VersionNeverFalls(s: Store, changes: seq<Change>)
    ensures ApplyAll(s, changes).version >= s.version
    ensures (exists c :: c in changes && c.Rewritten?) ==> ApplyAll(s, changes).version > s.version
    decreases |changes|
  {
    if changes != [] {
      VersionNeverFalls(Apply(s, changes[0]), changes[1..]);
      if c :| c in changes && c.Rewritten? {
        assert c == changes[0] || c in changes[1..];
      }
    }
  }

  /** Against versioned changes the commit is all or nothing: either nobody interfered and the new
      list is built from exactly the current history, or the history is left as the others made it. */
  lemma CommitIsOptimistic(s: Store, changes: seq<Change>, note: History)
    requires Compressible(s.ms)
    requires forall c | c in changes :: c.Rewritten?
    ensures var t := ApplyAll(s, changes);
            Commit(t, Snapshot(s).value, note) ==
              if changes == [] then Store(Compressed(t.ms, note), t.version + 1) else t
  {
    VersionNeverFalls(s, changes);
    if changes != [] {
      assert changes[0] in changes && changes[0].Rewritten?;
    }
  }

  /** One versioned change among any others is enough to protect the history. */
  lemma VersionedChangeProtects(s: Store, changes: seq<Change>, note: History)
    requires Compressible(s.ms)
    requires exists c :: c in changes && c.Rewritten?
    ensures Commit(ApplyAll(s, changes), Snapshot(s).value, note) == ApplyAll(s, changes)
  {
    VersionNeverFalls(s, changes);
  }

  // --------------------------------------------------- changes that count as none

  /** One change, seen on the rounds. */
  function RoundsAfterOne(rounds: seq<History>, c: Change): seq<History> {
    match c
    case Rewritten(_) => rounds
    case OldestDropped => if |rounds| > 1 then rounds[1..] else rounds
    case TextsCut(cap, cutNote) => MapRounds(Cutter(cap, cutNote), rounds)
  }

  function RoundsAfter(rounds: seq<History>, changes: seq<Change>): seq<History>
    decreases |changes|
  {
    if changes == [] then rounds else RoundsAfter(RoundsAfterOne(rounds, changes[0]), changes[1..])
  }

  lemma ChangeOnRounds(s: Store, c: Change, rounds: seq<History>)
    requires Split(s.ms) == Partition([], rounds) && rounds != [] && !c.Rewritten?
    ensures Split(Apply(s, c).ms) == Partition([], RoundsAfterOne(rounds, c)) && Apply(s, c).version == s.version
  {
    if c.OldestDropped? {
      if |rounds| > 1 {
        DroppedSplits(s.ms, 1);
      }
    } else {
      CutterMaps(s.ms, c.cap, c.cutNote);
      SplitMaps(Cutter(c.cap, c.cutNote), s.ms);
    }
  }

  lemma {:induction false} ChangesOnRounds(s: Store, changes: seq<Change>, rounds: seq<History>)
    requires Split(s.ms) == Partition([], rounds) && rounds != [] && forall c | c in changes :: !c.Rewritten?
    ensures Split(ApplyAll(s, changes).ms) == Partition([], RoundsAfter(rounds, changes))
    ensures ApplyAll(s, changes).version == s.version
    decreases |changes|
  {
    if changes != [] {
      assert changes[0] in changes;
      ChangeOnRounds(s, changes[0], rounds);
      ChangesOnRounds(Apply(s, changes[0]), changes[1..], RoundsAfterOne(rounds, changes[0]));
    }
  }

  /** What the cuts among the changes make of some messages. */
  function CutBy(ms: History, changes: seq<Change>): (r: History)
    ensures |r| == |ms|
    decreases |changes|
  {
    if changes == [] then ms
    else CutBy(if changes[0].TextsCut? then Truncated(ms, changes[0].cap, changes[0].cutNote) else ms, changes[1..])
  }

  lemma {:induction false} CutByConcat(a: History, b: History, changes: seq<Change>)
    ensures CutBy(a + b, changes) == CutBy(a, changes) + CutBy(b, changes)
    decreases |changes|
  {
    if changes != [] {
      var c := changes[0];
      if c.TextsCut? {
        var f := Cutter(c.cap, c.cutNote);
        CutterMaps(a + b, c.cap, c.cutNote);
        CutterMaps(a, c.cap, c.cutNote);
        CutterMaps(b, c.cap, c.cutNote);
        MapConcat(f, a, b);
        CutByConcat(MapAll(f, a), MapAll(f, b), changes[1..]);
      } else {
        CutByConcat(a, b, changes[1..]);
      }
    }
  }

  lemma {:induction false} CutByNothing(changes: seq<Change>)
    ensures CutBy([], changes) == []
  {
  }

  function CutRounds(rounds: seq<History>, changes: seq<Change>): (r: seq<History>)
    ensures |r| == |rounds|
  {
    seq(|rounds|, i requires 0 <= i < |rounds| => CutBy(rounds[i], changes))
  }

  lemma OneOfTheCuts(rounds: seq<History>, changes: seq<Change>)
    requires changes != [] && rounds != [] && !changes[0].Rewritten?
    ensures var next := RoundsAfterOne(rounds, changes[0]);
            && 1 <= |next| <= |rounds|
            && CutRounds(next, changes[1..]) == CutRounds(rounds, changes)[|rounds| - |next|..]
  {
    var c := changes[0];
    if c.TextsCut? {
      CutFirst(rounds, changes);
    } else {
      var next := RoundsAfterOne(rounds, c);
      assert CutRounds(next, changes[1..]) == CutRounds(rounds, changes)[|rounds| - |next|..];
    }
  }

  /** The first cut is made on every round, and the other changes follow it. */
  lemma CutFirst(rounds: seq<History>, changes: seq<Change>)
    requires changes != [] && changes[0].TextsCut?
    ensures var next := RoundsAfterOne(rounds, changes[0]);
            |next| == |rounds| && CutRounds(next, changes[1..]) == CutRounds(rounds, changes)
  {
    var c := changes[0];
    var next := RoundsAfterOne(rounds, c);
    forall i | 0 <= i < |rounds|
      ensures CutRounds(next, changes[1..])[i] == CutRounds(rounds, changes)[i]
    {
      CutterMaps(rounds[i], c.cap, c.cutNote);
    }
    assert CutRounds(next, changes[1..]) == CutRounds(rounds, changes);
  }

  /** The rounds that are left are the newest ones, with their texts cut. */
  lemma {:induction false} RoundsLeft(rounds: seq<History>, changes: seq<Change>)
    requires rounds != [] && forall c | c in changes :: !c.Rewritten?
    ensures var left := RoundsAfter(rounds, changes);
            && 1 <= |left| <= |rounds|
            && left == CutRounds(rounds, changes)[|rounds| - |left|..]
    decreases |changes|
  {
    if changes == [] {
      assert CutRounds(rounds, []) == rounds;
    } else {
      assert changes[0] in changes;
      OneOfTheCuts(rounds, changes);
      var next := RoundsAfterOne(rounds, changes[0]);
      RoundsLeft(next, changes[1..]);
      TailOfTail(CutRounds(rounds, changes), |rounds| - |next|, |next| - |RoundsAfter(next, changes[1..])|);
    }
  }

  lemma TailOfTail<T>(s: seq<T>, j: nat, k: nat)
    requires j + k <= |s|
    ensures s[j..][k..] == s[j + k..]
  {
  }

  lemma {:induction false} FlattenCut(rounds: seq<History>, changes: seq<Change>)
    ensures Flatten(CutRounds(rounds, changes)) == CutBy(Flatten(rounds), changes)
    decreases |rounds|
  {
    if rounds == [] {
      CutByNothing(changes);
    } else {
      FlattenCut(rounds[1..], changes);
      assert CutRounds(rounds, changes)[1..] == CutRounds(rounds[1..], changes);
      CutByConcat(rounds[0], Flatten(rounds[1..]), changes);
    }
  }

  lemma {:induction false} MoreRoundsAreLonger(rounds: seq<History>, k: nat)
    requires k <= |rounds| && forall i | 0 <= i < |rounds| :: rounds[i] != []
    ensures |Flatten(rounds)| >= |Flatten(rounds[k..])| + k
  {
    if k > 0 {
      MoreRoundsAreLonger(rounds[1..], k - 1);
      assert rounds[1..][k - 1..] == rounds[k..];
    }
  }

  /** What a compression makes of a history that consists of these rounds. */
  function OfRounds(rounds: seq<History>, note: History): History {
    if |rounds| > KEEP_ROUNDS then note + Flatten(rounds[|rounds| - KEEP_ROUNDS..]) else Flatten(rounds)
  }

  lemma CompressedOfRounds(ms: History, rounds: seq<History>, note: History)
    requires Split(ms) == Partition([], rounds)
    ensures Compressed(ms, note) == OfRounds(rounds, note)
  {
    SplitPartitions(ms);
    if |rounds| > KEEP_ROUNDS {
      var kept := note + Flatten(rounds[|rounds| - KEEP_ROUNDS..]);
      assert Compressed(ms, note) == [] + kept == kept;
    } else {
      assert [] + Flatten(rounds) == Flatten(rounds);
    }
  }

  lemma CommitOf(t: Store, job: Job, note: History)
    requires t.version == job.version && job.preamble == []
    ensures Commit(t, job, note).ms == note + Flatten(job.keep)
  {
    assert [] + (note + Flatten(job.keep)) == note + Flatten(job.keep);
  }

  lemma CommitInstalls(s: Store, t: Store, note: History)
    requires Compressible(s.ms) && t.version == s.version
    ensures Commit(t, Snapshot(s).value, note).ms == note + Flatten(NewestRounds(s.ms))
  {
    SplitPartitions(s.ms);
    CommitOf(t, Snapshot(s).value, note);
  }

  lemma CutTail(rounds: seq<History>, k: nat, changes: seq<Change>)
    requires k <= |rounds|
    ensures CutRounds(rounds, changes)[k..] == CutRounds(rounds[k..], changes)
    ensures Flatten(CutRounds(rounds, changes)[k..]) == CutBy(Flatten(rounds[k..]), changes)
  {
    assert CutRounds(rounds, changes)[k..] == CutRounds(rounds[k..], changes);
    FlattenCut(rounds[k..], changes);
  }

  /** The newest of the rounds that are left, as long as they are enough, are the kept ones with the cuts. */
  lemma NewestOfLeft(rounds: seq<History>, left: seq<History>, changes: seq<Change>)
    requires KEEP_ROUNDS <= |left| <= |rounds| && left == CutRounds(rounds, changes)[|rounds| - |left|..]
    ensures Flatten(left[|left| - KEEP_ROUNDS..]) == CutBy(Flatten(rounds[|rounds| - KEEP_ROUNDS..]), changes)
  {
    CutTail(rounds, |rounds| - KEEP_ROUNDS, changes);
    TailOfTail(CutRounds(rounds, changes), |rounds| - |left|, |left| - KEEP_ROUNDS);
  }

  lemma SameWithoutNote(note: History, a: History, b: History)
    requires |a| == |b|
    ensures note + a == b <==> note == [] && a == b
  {
    if note == [] {
      assert note + a == a;
    } else {
      assert |note + a| > |b|;
    }
  }

  /** What is committed against what the remaining rounds would be compressed to. */
  lemma CommitAgainstLeft(rounds: seq<History>, left: seq<History>, note: History, changes: seq<Change>)
    requires |rounds| > KEEP_ROUNDS && 1 <= |left| <= |rounds| && forall i | 0 <= i < |rounds| :: rounds[i] != []
    requires left == CutRounds(rounds, changes)[|rounds| - |left|..]
    ensures var kept := Flatten(rounds[|rounds| - KEEP_ROUNDS..]);
            note + kept == OfRounds(left, note) <==>
              (|left| > KEEP_ROUNDS || (|left| == KEEP_ROUNDS && note == [])) && CutBy(kept, changes) == kept
  {
    var kept := Flatten(rounds[|rounds| - KEEP_ROUNDS..]);
    if |left| > KEEP_ROUNDS {
      NewestOfLeft(rounds, left, changes);
      SameTail(note, kept, CutBy(kept, changes));
    } else if |left| == KEEP_ROUNDS {
      NewestOfLeft(rounds, left, changes);
      assert left[0..] == left;
      SameWithoutNote(note, kept, CutBy(kept, changes));
    } else {
      CutTail(rounds, |rounds| - |left|, changes);
      FewerRoundsAreShorter(rounds, |rounds| - |left|);
    }
  }

  lemma FewerRoundsAreShorter(rounds: seq<History>, k: nat)
    requires |rounds| > KEEP_ROUNDS && |rounds| - KEEP_ROUNDS < k <= |rounds|
    requires forall i | 0 <= i < |rounds| :: rounds[i] != []
    ensures |Flatten(rounds[|rounds| - KEEP_ROUNDS..])| > |Flatten(rounds[k..])|
  {
    var cut := |rounds| - KEEP_ROUNDS;
    var tail := rounds[cut..];
    TailOfTail(rounds, cut, k - cut);
    MoreRoundsAreLonger(tail, k - cut);
  }

  lemma SameTail(note: History, a: History, b: History)
    ensures note + a == note + b <==> a == b
  {
    if note + a == note + b {
      assert (note + a)[|note|..] == a && (note + b)[|note|..] == b;
    }
  }

  lemma LateCommit(s: Store, t: Store, left: seq<History>, changes: seq<Change>, note: History)
    requires Compressible(s.ms) && t.version == s.version && Split(t.ms) == Partition([], left)
    requires 1 <= |left| <= RoundCount(s.ms)
    requires left == CutRounds(Split(s.ms).rounds, changes)[RoundCount(s.ms) - |left|..]
    ensures var kept := Flatten(NewestRounds(s.ms));
            Commit(t, Snapshot(s).value, note).ms == Compressed(t.ms, note) <==>
              (|left| > KEEP_ROUNDS || (|left| == KEEP_ROUNDS && note == [])) && CutBy(kept, changes) == kept
  {
    var rounds := Split(s.ms).rounds;
    assert forall i | 0 <= i < |rounds| :: rounds[i] != [] by {
      SplitPartitions(s.ms);
    }
    CommitInstalls(s, t, note);
    CompressedOfRounds(t.ms, left, note);
    CommitAgainstLeft(rounds, left, note, changes);
  }

  /** Dropping rounds and cutting texts do not count as changes. The late commit is still what a
      compression of the current history would give exactly as long as more rounds are left than are
      kept (or as many, with no summary to add) and the cuts touched none of the kept rounds; otherwise
      it brings dropped rounds or uncut texts back. */
  lemma UnversionedChangesExactly(s: Store, changes: seq<Change>, note: History)
    requires Compressible(s.ms) && forall c | c in changes :: !c.Rewritten?
    ensures var t := ApplyAll(s, changes);
            var left := RoundCount(t.ms);
            var kept := Flatten(NewestRounds(s.ms));
            Commit(t, Snapshot(s).value, note).ms == Compressed(t.ms, note) <==>
              (left > KEEP_ROUNDS || (left == KEEP_ROUNDS && note == [])) && CutBy(kept, changes) == kept
  {
    var rounds := Split(s.ms).rounds;
    OnlyRounds(s.ms);
    ChangesOnRounds(s, changes, rounds);
    RoundsLeft(rounds, changes);
    LateCommit(s, ApplyAll(s, changes), RoundsAfter(rounds, changes), changes, note);
  }

  function Drops(n: nat): (r: seq<Change>)
    ensures |r| == n && forall c | c in r :: c.OldestDropped?
  {
    seq(n, _ => OldestDropped)
  }

  lemma {:induction false} DropsLeave(rounds: seq<History>, n: nat)
    requires n < |rounds|
    ensures RoundsAfter(rounds, Drops(n)) == rounds[n..]
    decreases n
  {
    if n > 0 {
      assert Drops(n)[1..] == Drops(n - 1);
      DropsLeave(rounds[1..], n - 1);
      assert rounds[1..][n - 1..] == rounds[n..];
    }
  }

  /** For every history that is being compressed there are drops that make the late commit wrong: when
      nine rounds are left it brings the tenth back. Only the round's own thread drops rounds, so this
      takes a second owner of the round. */
  lemma LateCommitCanBeWrong(s: Store, note: History) returns (changes: seq<Change>)
    requires Compressible(s.ms)
    ensures var t := ApplyAll(s, changes);
            && t.version == s.version && RoundCount(t.ms) == KEEP_ROUNDS - 1
            && Commit(t, Snapshot(s).value, note).ms == note + Flatten(NewestRounds(s.ms)) != Compressed(t.ms, note)
  {
    changes := Drops(RoundCount(s.ms) - KEEP_ROUNDS + 1);
    OnlyRounds(s.ms);
    DropsLeave(Split(s.ms).rounds, |changes|);
    ChangesOnRounds(s, changes, Split(s.ms).rounds);
    UnversionedChangesExactly(s, changes, note);
    CommitInstalls(s, ApplyAll(s, changes), note);
  }

  lemma OnlyRounds(ms: History)
    requires Compressible(ms)
    ensures Split(ms) == Partition([], Split(ms).rounds) && Split(ms).rounds != []
  {
    SplitPartitions(ms);
  }
}
