/** One conversation with the fields the source updates in place. Every method is one lock section
    (or a loop over such sections) and is proved against the functions the theorems are about. */
module ChatParam {
  import opened Common
  import opened Messages
  import opened Rounds
  import opened Window
  import opened WindowChecks
  import opened Ownership
  import Compression
  import Merge
  import RoundRun
  import Tokens
  import Validate

  class Conversation {
    var responseList: History
    var responseQueue: History
    var ctxVersion: nat
    var lastBaseEstimate: nat
    var lastEstimate: nat
    var lastPromptTokens: nat
    var roundMaxTotalTokens: nat
    var pendingHandOff: bool
    var pendingCompaction: bool
    var roundActive: bool
    var isStopped: bool
    var pendingAsks: seq<Ask>
    var stopEpoch: nat
    var roundEpoch: nat

    function Store(): Compression.Store
      reads this`responseList, this`ctxVersion
    {
      Compression.Store(responseList, ctxVersion)
    }

    function Flags(): Ownership.Flags
      reads this`roundActive, this`isStopped, this`pendingAsks
    {
      Ownership.Flags(roundActive, isStopped, pendingAsks)
    }

    constructor ()
      ensures responseList == [] && responseQueue == [] && ctxVersion == 0
      ensures Flags() == Ownership.INITIAL.flags
      ensures stopEpoch == roundEpoch == 0 && !pendingHandOff && !pendingCompaction
    {
      responseList, responseQueue, ctxVersion := [], [], 0;
      lastBaseEstimate, lastEstimate, lastPromptTokens, roundMaxTotalTokens := 0, 0, 0, 0;
      pendingHandOff, pendingCompaction := false, false;
      roundActive, isStopped, pendingAsks := false, true, [];
      stopEpoch, roundEpoch := 0, 0;
    }

    // ------------------------------------------------------------------ adding messages

    /** Refuses (in the source: raises) a role outside the four. */
    method AddToResponseList(m: Message) returns (ok: bool)
      modifies this`responseList, this`ctxVersion
      ensures ok == !m.role.Other?
      ensures responseList == old(responseList) + if ok then [m] else []
      ensures ctxVersion == old(ctxVersion) + if ok then 1 else 0
    {
      ok := !m.role.Other?;
      if ok {
        responseList := responseList + [m];
        ctxVersion := ctxVersion + 1;
      }
    }

    /** Refuses anything but a system or user message. */
    method ForcedAddToResponseList(m: Message) returns (ok: bool)
      modifies this`responseQueue
      ensures ok == RoundRun.IsNote(m)
      ensures responseQueue == old(responseQueue) + if ok then [m] else []
    {
      ok := m.role == System || m.role == User;
      if ok {
        responseQueue := responseQueue + [m];
      }
    }

    /** Moves the whole queue behind the history in one section, so nothing in between is lost. */
    method MergeResponseQueue() returns (merged: nat)
      modifies this`responseList, this`responseQueue, this`ctxVersion
      ensures merged == |old(responseQueue)|
      ensures responseList == old(responseList) + old(responseQueue) && responseQueue == []
      ensures ctxVersion == old(ctxVersion) + if merged == 0 then 0 else 1
    {
      merged := |responseQueue|;
      if merged == 0 {
        assert responseList + responseQueue == responseList;
        return;
      }
      responseList := responseList + responseQueue;
      responseQueue := [];
      ctxVersion := ctxVersion + 1;
    }

    /** Straight into an idle history, into the queue of a running one. */
    method AddExternalMessage(content: string) returns (queued: bool)
      modifies this`responseList, this`responseQueue, this`ctxVersion
      ensures queued == !isStopped
      ensures responseList == old(responseList) + if queued then [] else [Plain(User, content)]
      ensures responseQueue == old(responseQueue) + if queued then [Plain(User, content)] else []
      ensures ctxVersion == old(ctxVersion) + if queued then 0 else 1
    {
      queued := !isStopped;
      if isStopped {
        var ok := AddToResponseList(Plain(User, content));
      } else {
        var ok := ForcedAddToResponseList(Plain(User, content));
      }
    }

    method InjectNote(note: Message)
      modifies this`responseList, this`ctxVersion
      ensures responseList == Merge.Noted(old(responseList), note) && ctxVersion == old(ctxVersion) + 1
    {
      var found, noted := Merge.InsertBeforeLastUser(responseList, note);
      responseList := if found then noted else responseList + [note];
      ctxVersion := ctxVersion + 1;
    }

    // -------------------------------------------------------------------------- rounds

    method SplitRounds() returns (preamble: History, rounds: seq<History>)
      ensures Partition(preamble, rounds) == Split(responseList)
    {
      var pending: History := [];
      rounds := [];
      for i := 0 to |responseList|
        invariant SplitState(pending, rounds) == ScanTo(responseList, i)
      {
        var msg := responseList[i];
        if msg.role == System {
          pending := pending + [msg];
        } else if msg.role == User {
          if rounds != [] && pending == [] && EndsWithUser(rounds[|rounds| - 1]) {
            rounds := ExtendLast(rounds, [msg]);
          } else {
            rounds := rounds + [pending + [msg]];
            pending := [];
          }
        } else if rounds != [] {
          rounds := ExtendLast(rounds, pending + [msg]);
          pending := [];
        } else {
          rounds := [pending + [msg]];
          pending := [];
        }
      }
      preamble := [];
      if pending != [] {
        if rounds != [] {
          rounds := ExtendLast(rounds, pending);
        } else {
          preamble := pending;
        }
      }
    }

    method DropOldestRound() returns (dropped: bool)
      modifies this`responseList
      ensures responseList == DropRounds(old(responseList), 1)
      ensures dropped <==> RoundCount(old(responseList)) > 1
      ensures !dropped ==> responseList == old(responseList)
    {
      var preamble, rounds := SplitRounds();
      SplitPartitions(responseList);
      if |rounds| <= 1 {
        return false;
      }
      var rest: History := [];
      for k := 1 to |rounds|
        invariant rest + Flatten(rounds[k..]) == Flatten(rounds[1..])
      {
        assert rounds[k..][1..] == rounds[k + 1..];
        rest := rest + rounds[k];
      }
      responseList := preamble + rest;
      return true;
    }

    method TruncateLongMessages(cap: nat, note: Note) returns (changed: bool)
      modifies this`responseList
      ensures responseList == Truncated(old(responseList), cap, note)
      ensures changed <==> exists m :: m in old(responseList) && Oversized(m, cap)
    {
      var newList;
      changed, newList := CutLongTexts(responseList, cap, note);
      if changed {
        responseList := newList;
      }
    }

    // -------------------------------------------------------------------------- window

    method EstimateRequestTokens(lim: Limits) returns (tokens: nat)
      requires lim.Valid()
      modifies this`lastBaseEstimate
      ensures tokens == RequestEstimate(responseList, lim)
      ensures lastBaseEstimate == BaseEstimate(responseList, lim)
    {
      var total := lim.fixed;
      for i := 0 to |responseList|
        invariant total == lim.fixed + SumTo(MessageTokens, responseList, i)
      {
        var cost := Tokens.EstimateTextTokens(MessageText(responseList[i]));
        total := total + cost + MESSAGE_OVERHEAD;
      }
      lastBaseEstimate := total;
      tokens := Calibrate(total, lim.factor);
    }

    /** Drops the oldest round until the request fits or nothing is left to drop. */
    method DropUntilFits(lim: Limits)
      requires lim.Valid()
      modifies this`responseList, this`lastBaseEstimate
      ensures responseList == DropWhileTooBig(old(responseList), lim)
    {
      var estimate := EstimateRequestTokens(lim);
      while estimate > lim.Target()
        invariant DropWhileTooBig(responseList, lim) == old(DropWhileTooBig(responseList, lim))
        invariant estimate == RequestEstimate(responseList, lim)
        decreases RoundCount(responseList)
      {
        if RoundCount(responseList) > 1 {
          DropCounts(responseList, 1);
        }
        var dropped := DropOldestRound();
        if !dropped {
          break;
        }
        estimate := EstimateRequestTokens(lim);
      }
    }

    method EmergencyReduce(lim: Limits, note: Note)
      requires lim.Valid()
      modifies this`responseList, this`lastBaseEstimate
      ensures responseList == Reduced(old(responseList), lim, note)
    {
      var estimate := EstimateRequestTokens(lim);
      if estimate <= lim.Target() {
        return;
      }
      var changed := TruncateLongMessages(lim.MessageCap(), note);
      LoopDropsLeast(responseList, lim);
      DropUntilFits(lim);
    }

    method TakeSnapshot() returns (job: Option<Compression.Job>)
      ensures job == Compression.Snapshot(Store())
    {
      var preamble, rounds := SplitRounds();
      if |rounds| <= KEEP_ROUNDS {
        return None;
      }
      var k := |rounds| - KEEP_ROUNDS;
      job := Some(Compression.Job(rounds[..k], rounds[k..], preamble, ctxVersion));
    }

    method CommitSummary(job: Compression.Job, summaryNote: History) returns (installed: bool)
      modifies this`responseList, this`ctxVersion
      ensures Store() == Compression.Commit(old(Store()), job, summaryNote)
      ensures installed <==> old(ctxVersion) == job.version
    {
      if ctxVersion != job.version {
        return false;
      }
      var newList := job.preamble + summaryNote;
      ghost var target := job.preamble + (summaryNote + Flatten(job.keep));
      assert job.keep[0..] == job.keep;
      for k := 0 to |job.keep|
        invariant newList + Flatten(job.keep[k..]) == target
      {
        assert job.keep[k..][1..] == job.keep[k + 1..];
        newList := newList + job.keep[k];
      }
      responseList := newList;
      ctxVersion := ctxVersion + 1;
      return true;
    }

    /** Both sections with nobody in between. */
    method CompressOldRounds(prefix: string, summary: Option<string>) returns (installed: bool)
      modifies this`responseList, this`ctxVersion
      ensures responseList == Compressed(old(responseList), SummaryNote(prefix, summary))
      ensures installed <==> Compressible(old(responseList))
      ensures ctxVersion == old(ctxVersion) + if installed then 1 else 0
    {
      var job := TakeSnapshot();
      if job.None? {
        return false;
      }
      installed := CommitSummary(job.value, SummaryNote(prefix, summary));
    }

    method ApplyPendingHandOff(prefix: string, summary: Option<string>)
      modifies this`responseList, this`ctxVersion, this`pendingHandOff
      ensures !pendingHandOff
      ensures responseList ==
              if old(pendingHandOff) then HandedOver(old(responseList), prefix, summary) else old(responseList)
      ensures ctxVersion == old(ctxVersion) + if old(pendingHandOff) && summary.Some? then 1 else 0
    {
      if !pendingHandOff {
        return;
      }
      pendingHandOff := false;
      if summary.Some? {
        responseList := SummaryNote(prefix, summary) + responseList;
        ctxVersion := ctxVersion + 1;
      } else {
        assert [] + responseList == responseList;
      }
    }

    method ApplyPendingCompaction(prefix: string, summary: Option<string>)
      modifies this`responseList, this`ctxVersion, this`pendingCompaction
      ensures !pendingCompaction
      ensures responseList ==
              if old(pendingCompaction) then Compressed(old(responseList), SummaryNote(prefix, summary))
              else old(responseList)
    {
      if !pendingCompaction {
        return;
      }
      pendingCompaction := false;
      var installed := CompressOldRounds(prefix, summary);
    }

    /** The deferred work a player or a model switch left for this request. */
    method ApplyDeferred(p: Prefixes, s: Summaries)
      modifies this`responseList, this`ctxVersion, this`pendingHandOff, this`pendingCompaction
      ensures !pendingHandOff && !pendingCompaction
      ensures responseList == Prepared(old(responseList), old(pendingHandOff), old(pendingCompaction), p, s)
    {
      ApplyPendingHandOff(p.handOff, s.handOff);
      ApplyPendingCompaction(p.summary, s.forced);
    }

    method CheckWindow(lim: Limits, note: Note, p: Prefixes, s: Summaries)
      requires lim.Valid()
      modifies this`responseList, this`ctxVersion, this`lastBaseEstimate, this`lastEstimate
      ensures responseList == Preflight(old(responseList), lim, note, p, s)
    {
      var estimate := EstimateRequestTokens(lim);
      lastEstimate := estimate;
      if 100 * estimate >= 95 * lim.window {
        EmergencyReduce(lim, note);
      } else if 100 * estimate >= 80 * lim.window {
        CompressAndReduce(lim, note, p, s);
      }
    }

    method CompressAndReduce(lim: Limits, note: Note, p: Prefixes, s: Summaries)
      requires lim.Valid()
      modifies this`responseList, this`ctxVersion, this`lastBaseEstimate
      ensures responseList == Reduced(Compressed(old(responseList), SummaryNote(p.summary, s.automatic)), lim, note)
    {
      var installed := CompressOldRounds(p.summary, s.automatic);
      EmergencyReduce(lim, note);
    }

    /** The check in front of every request. */
    method ManageContextPreflight(lim: Limits, note: Note, p: Prefixes, s: Summaries)
      requires lim.Valid()
      modifies this`responseList, this`ctxVersion, this`pendingHandOff, this`pendingCompaction,
               this`lastBaseEstimate, this`lastEstimate
      ensures !pendingHandOff && !pendingCompaction
      ensures responseList ==
              Preflight(Prepared(old(responseList), old(pendingHandOff), old(pendingCompaction), p, s), lim, note, p, s)
      ensures LeftByCheck(old(responseList), old(pendingHandOff), old(pendingCompaction), lim, note, p, s, responseList)
      ensures WithinWindow(responseList, lim)
      ensures old(WellFormed(responseList)) ==> WellFormed(responseList)
    {
      CheckLeaves(responseList, pendingHandOff, pendingCompaction, lim, note, p, s);
      PreparedWellFormed(responseList, pendingHandOff, pendingCompaction, p, s);
      ApplyDeferred(p, s);
      PreflightFits(responseList, lim, note, p, s);
      PreflightWellFormed(responseList, lim, note, p, s);
      CheckWindow(lim, note, p, s);
    }

    /** The check behind every request. */
    method ManageContextAfter(lim: Limits, note: Note, p: Prefixes, s: Summaries)
      requires lim.Valid()
      modifies this`responseList, this`ctxVersion, this`lastBaseEstimate, this`lastEstimate
      ensures responseList ==
              AfterRequest(old(responseList), Triggered(roundMaxTotalTokens, lastPromptTokens, lim), lim, note, p, s)
      ensures if 5 * roundMaxTotalTokens >= lim.window || 5 * lastPromptTokens >= 4 * lim.window
              then SummedUp(old(responseList), lim, note, p.summary, s.automatic, responseList)
              else responseList == old(responseList)
      ensures old(WellFormed(responseList)) ==> WellFormed(responseList)
    {
      TriggeredMeans(roundMaxTotalTokens, lastPromptTokens, lim);
      AfterRequestLeaves(responseList, Triggered(roundMaxTotalTokens, lastPromptTokens, lim), lim, note, p, s);
      AfterRequestWellFormed(responseList, Triggered(roundMaxTotalTokens, lastPromptTokens, lim), lim, note, p, s);
      var estimate := EstimateRequestTokens(lim);
      lastEstimate := estimate;
      if Triggered(roundMaxTotalTokens, lastPromptTokens, lim) {
        CompressAndReduce(lim, note, p, s);
      }
    }

    // -------------------------------------------------------------------------- repair

    /** Only a shorter list is installed; the length alone decides. */
    method ValidateSequence()
      modifies this`responseList, this`ctxVersion
      ensures responseList == Validate.Validated(old(responseList))
      ensures Grouped(responseList)
      ensures ctxVersion == old(ctxVersion) + if responseList == old(responseList) then 0 else 1
    {
      Validate.LengthDecides(responseList);
      Validate.ValidatedGrouped(responseList);
      var cleaned := Validate.CleanSequence(responseList);
      if |cleaned| != |responseList| {
        responseList := cleaned;
        ctxVersion := ctxVersion + 1;
      }
    }

    method DropUnansweredToolCall() returns (dropped: nat)
      modifies this`responseList, this`ctxVersion
      ensures responseList == RoundRun.WithoutUnanswered(old(responseList))
      ensures dropped == |old(responseList)| - |responseList| <= 1
      ensures ctxVersion == old(ctxVersion) + dropped
    {
      dropped := 0;
      if responseList != [] && IsCalling(responseList[|responseList| - 1]) {
        responseList := responseList[..|responseList| - 1];
        ctxVersion := ctxVersion + 1;
        dropped := 1;
      }
    }

    /** A stopped round leaves whole groups behind, whatever it was interrupted in. */
    method AbortInterruptedRound()
      modifies this`responseList, this`ctxVersion
      ensures responseList == Validate.Validated(RoundRun.WithoutUnanswered(old(responseList)))
      ensures Grouped(responseList)
      ensures old(Owned(responseList)) ==> WellFormed(responseList)
    {
      if Owned(responseList) {
        RoundRun.AbortKeepsOwned(responseList);
        Validate.ValidatedWellFormed(RoundRun.WithoutUnanswered(responseList));
      }
      var dropped := DropUnansweredToolCall();
      ValidateSequence();
    }

    // ---------------------------------------------------------------- ownership and stop

    method RequestStop() returns (accepted: bool)
      modifies this`stopEpoch
      ensures accepted == !isStopped
      ensures stopEpoch == old(stopEpoch) + if accepted then 1 else 0
    {
      if isStopped {
        return false;
      }
      stopEpoch := stopEpoch + 1;
      return true;
    }

    method BeginRound()
      modifies this`roundEpoch
      ensures roundEpoch == stopEpoch
    {
      roundEpoch := stopEpoch;
    }

    method TryClaimRound() returns (got: bool)
      modifies this`roundActive, this`isStopped, this`roundEpoch
      ensures (Flags(), got) == old(Flags()).Claim()
      ensures roundEpoch == if got then stopEpoch else old(roundEpoch)
    {
      if roundActive {
        return false;
      }
      roundActive := true;
      isStopped := false;
      BeginRound();
      return true;
    }

    method QueuePendingAsk(ask: Ask)
      modifies this`pendingAsks
      ensures Flags() == old(Flags()).Queue(ask)
    {
      pendingAsks := pendingAsks + [ask];
    }

    method FinishRoundOrTakeNext() returns (batch: Option<seq<Ask>>)
      modifies this`roundActive, this`isStopped, this`pendingAsks, this`roundEpoch
      ensures (Flags(), batch) == old(Flags()).FinishOrTakeNext(responseQueue != [])
      ensures roundEpoch == if batch.Some? then stopEpoch else old(roundEpoch)
    {
      if pendingAsks != [] {
        batch := Some(pendingAsks);
        pendingAsks := [];
        isStopped := false;
        BeginRound();
        return;
      }
      if responseQueue != [] {
        isStopped := false;
        BeginRound();
        return Some([]);
      }
      roundActive := false;
      isStopped := true;
      return None;
    }

    method ReleaseRound()
      modifies this`roundActive, this`isStopped
      ensures Flags() == old(Flags()).Release()
    {
      roundActive := false;
      isStopped := true;
    }
  }
}
