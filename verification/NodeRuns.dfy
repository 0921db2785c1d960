/** A node's waiting calls over any interleaving: many threads call at once while replies come in and
    the link drops. */
module NodeRuns {

  type Rid = nat

  /** Where a call that wants to wait for its reply stands. */
  datatype Phase =
    | Numbered            // has its id, in front of its listing
    | Listed              // in front of its sending
    | Waiting             // sent, waits for the reply or the timeout
    | Back                // returned, after it took itself off the list
    | Unsent              // returned because its frame could not be sent

  /** `filled` are the calls whose box holds a reply, `doomed` those a dropped link took off the list and
      has still to wake. */
  datatype State = State(
    counter: nat, pending: set<Rid>, calls: map<Rid, Phase>, filled: set<Rid>, doomed: set<Rid>)

  datatype Step = Call | List(rid: Rid) | Transmit(rid: Rid, sent: bool) | Return(rid: Rid) | Reply(rid: Rid) | Drop
                | Wake(rid: Rid)

  const INIT := State(0, {}, map[], {}, {})

  predicate InPhase(s: State, rid: Rid, p: Phase) {
    rid in s.calls && s.calls[rid] == p
  }

  predicate Enabled(s: State, e: Step) {
    match e
    case Call => true
    case List(rid) => InPhase(s, rid, Numbered)
    case Transmit(rid, _) => InPhase(s, rid, Listed)
    case Return(rid) => InPhase(s, rid, Waiting)
    case Reply(rid) => rid in s.pending
    case Drop => true
    case Wake(rid) => rid in s.doomed
  }

  function Next(s: State, e: Step): State
    requires Enabled(s, e)
  {
    match e
    case Call => s.(counter := s.counter + 1, calls := s.calls[s.counter + 1 := Numbered])
    case List(rid) => s.(pending := s.pending + {rid}, calls := s.calls[rid := Listed])
    case Transmit(rid, sent) => s.(calls := s.calls[rid := if sent then Waiting else Unsent])
    case Return(rid) => s.(pending := s.pending - {rid}, calls := s.calls[rid := Back])
    case Reply(rid) => s.(filled := s.filled + {rid})
    case Drop => s.(doomed := s.doomed + s.pending, pending := {})
    case Wake(rid) => s.(doomed := s.doomed - {rid}, filled := s.filled + {rid})
  }

  ghost predicate Legal(s: State, steps: seq<Step>)
    decreases |steps|
  {
    steps == [] || (Enabled(s, steps[0]) && Legal(Next(s, steps[0]), steps[1..]))
  }

  ghost function Run(s: State, steps: seq<Step>): State
    requires Legal(s, steps)
    decreases |steps|
  {
    if steps == [] then s else Run(Next(s, steps[0]), steps[1..])
  }

  function Noted(e: Step, earlier: set<Rid>): set<Rid> {
    match e
    case List(rid) => earlier + {rid}
    case Drop => {}
    case _ => earlier
  }

  /** The calls that listed themselves since the link last dropped, read off the run. */
  function ListedSince(steps: seq<Step>, earlier: set<Rid>): set<Rid> {
    if steps == [] then earlier else ListedSince(steps[1..], Noted(steps[0], earlier))
  }

  predicate InFlight(s: State, rid: Rid) {
    InPhase(s, rid, Listed) || InPhase(s, rid, Waiting)
  }

  ghost predicate Known(s: State, since: set<Rid>) {
    && (forall rid | rid in s.calls :: rid <= s.counter)
    && (forall rid :: rid in s.pending <==> rid in since && (InFlight(s, rid) || InPhase(s, rid, Unsent)))
    && (forall rid | rid in since :: rid in s.calls && s.calls[rid] != Numbered)
    && (forall rid | InFlight(s, rid) :: rid in s.pending || rid in s.doomed || rid in s.filled)
  }

  lemma StepKeepsKnown(s: State, e: Step, since: set<Rid>)
    requires Known(s, since) && Enabled(s, e)
    ensures Known(Next(s, e), Noted(e, since))
  {
  }

  lemma {:induction false} RunKeepsKnown(s: State, steps: seq<Step>, since: set<Rid>)
    requires Known(s, since) && Legal(s, steps)
    ensures Known(Run(s, steps), ListedSince(steps, since))
    decreases |steps|
  {
    if steps != [] {
      StepKeepsKnown(s, steps[0], since);
      RunKeepsKnown(Next(s, steps[0]), steps[1..], Noted(steps[0], since));
    }
  }

  /** What is on the list are the calls that listed themselves since the link last dropped and are either
      still in flight or came back because their frame could not be sent: these stay until the next drop. */
  lemma PendingExactly(steps: seq<Step>)
    requires Legal(INIT, steps)
    ensures var s := Run(INIT, steps);
            s.pending == set rid | rid in ListedSince(steps, {}) && (InFlight(s, rid) || InPhase(s, rid, Unsent))
  {
    RunKeepsKnown(INIT, steps, {});
  }

  /** No caller in flight is forgotten: its reply is there, or it is listed to get one, or the thread
      that noticed the drop has still to wake it. */
  lemma NobodyIsForgotten(steps: seq<Step>, rid: Rid)
    requires Legal(INIT, steps) && InFlight(Run(INIT, steps), rid)
    ensures var s := Run(INIT, steps);
            rid in s.pending || rid in s.doomed || rid in s.filled
  {
    RunKeepsKnown(INIT, steps, {});
  }

  /** The calls a reply came for while they were listed, and those a thread woke after a drop. */
  function FilledBy(steps: seq<Step>): set<Rid> {
    if steps == [] then {}
    else (match steps[0] case Reply(rid) => {rid} case Wake(rid) => {rid} case _ => {}) + FilledBy(steps[1..])
  }

  lemma {:induction false} RunFills(s: State, steps: seq<Step>)
    requires Legal(s, steps)
    ensures Run(s, steps).filled == s.filled + FilledBy(steps)
    decreases |steps|
  {
    if steps != [] {
      RunFills(Next(s, steps[0]), steps[1..]);
    }
  }

  /** A box holds a reply exactly when one came while the call was listed, or the call was woken after a drop. */
  lemma FilledExactly(steps: seq<Step>)
    requires Legal(INIT, steps)
    ensures Run(INIT, steps).filled == FilledBy(steps)
  {
    RunFills(INIT, steps);
  }
}
