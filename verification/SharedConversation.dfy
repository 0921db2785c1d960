/** Ownership and rounds together: any number of askers and managers work on one conversation, each at
    its own place in `response_ai`, while others deliver messages to it and ask to stop. */
module SharedConversation {
  import opened Common
  import opened Messages
  import O = Ownership
  import R = RoundRun
  import LateStarts

  type Tid = O.Tid

  /** `conv` is what the threads share (its own control stays idle) and `places` where each of them stands.
      `holder` is the message of a delivery that found no round running and keeps the history's lock until
      it is stored; `bound` are those that found one running and are still to be queued. */
  datatype World = World(
    o: O.State, conv: R.State, places: map<Tid, R.Control>, holder: Option<Message>, bound: multiset<Message>)

  datatype Step =
    | Own(t: Tid, action: O.Action)                // a section under the round's lock
    | Run(t: Tid, l: R.Label)                  // a step of a thread inside the conversation
    | Force(t: Tid, message: Message, last: bool)  // `ask -f` on a running round
    | Deliver(message: Message) | Store | QueueUp(message: Message)
    | Stop

  function Place(w: World, t: Tid): R.Control {
    if t in w.places then w.places[t] else R.Idle
  }

  /** The conversation as this thread sees it. */
  function Seen(w: World, t: Tid): R.State {
    w.conv.(control := Place(w, t))
  }

  function Moved(w: World, t: Tid, s: R.State): World {
    w.(conv := s.(control := R.Idle), places := w.places[t := s.control])
  }

  /** The steps that take the history's lock. */
  predicate TakesLock(l: R.Label) {
    || l.Write? || l.MergeStart? || l.Inject? || l.EditContext? || l.Append? || l.ToolDone? || l.MergeNow?
    || l.ValidateEnd? || l.DropUnanswered? || l.Switch? || l.AskSummary?
  }

  /** What a thread may do inside the conversation; the rest belongs to the lock sections and to others. */
  predicate MayRun(p: O.Phase, l: R.Label) {
    match p
    case Owner(_) => l.Write?
    case InRound(_) =>
      !(|| l.Write? || l.Switch? || l.Manage? || l.LetGo? || l.Claim? || l.NextRound? || l.RequestStop?
        || l.Enqueue? || l.External?)
    case Managing => l.Switch?
    case _ => false
  }

  predicate Enabled(w: World, e: Step) {
    match e
    case Own(t, action) =>
      && !action.Drain? && !action.Relay? && !action.QueueForced?
      && O.Enabled(w.o, O.Label(t, action))
      && (action.LeaveResponse? ==> Place(w, t).Finished?)
    case Run(t, l) =>
      MayRun(O.At(w.o, t), l) && R.Enabled(Seen(w, t), l) && (TakesLock(l) ==> w.holder.None?)
    case Force(t, message, _) => O.At(w.o, t).MustQueue? && message.role == User && w.holder.None?
    case Deliver(message) => message.role == User && w.holder.None?
    case Store => w.holder.Some?
    case QueueUp(message) => message in w.bound && w.holder.None?
    case Stop => true
  }

  /** What a section under the round's lock finds: it looks at the message queue as it is. */
  function Ready(w: World): O.State {
    w.o.(leftover := w.conv.queue != [])
  }

  function Locked(w: World, t: Tid, action: O.Action): O.State
    requires Enabled(w, Own(t, action))
  {
    O.Apply(Ready(w), O.Label(t, action))
  }

  /** It also begins or ends a thread's work on the conversation. */
  function PlaceAfter(action: O.Action, p: O.Phase, c: R.Control): R.Control {
    match action
    case TryClaim => if p.Owner? then R.Claimed else c
    case Finish => if p.Owner? then R.Claimed else R.Idle
    case ManagerClaim => if p.Managing? then R.Managed else c
    case Release => R.Idle
    case ManagerRelease => R.Idle
    case _ => c
  }

  predicate TakesSnapshot(action: O.Action, p: O.Phase) {
    ((action.TryClaim? || action.Finish?) && p.Owner?) || (action.ManagerClaim? && p.Managing?)
  }

  function AfterOwn(w: World, t: Tid, action: O.Action): World
    requires Enabled(w, Own(t, action))
  {
    var p := O.At(Locked(w, t, action), t);
    w.(o := Locked(w, t, action),
       conv := if TakesSnapshot(action, p) then w.conv.BeginRound() else w.conv,
       places := w.places[t := PlaceAfter(action, p, Place(w, t))])
  }

  function Apply(w: World, e: Step): World
    requires Enabled(w, e)
  {
    match e
    case Own(t, action) => AfterOwn(w, t, action)
    case Run(t, l) => Moved(w, t, R.Apply(Seen(w, t), l))
    case Force(t, message, last) =>
      w.(conv := w.conv.(queue := w.conv.queue + [message]), o := if last then O.To(w.o, t, O.Gone) else w.o)
    case Deliver(message) =>
      if w.o.flags.stopped then w.(holder := Some(message)) else w.(bound := w.bound + multiset{message})
    case Store => w.(conv := w.conv.(history := w.conv.history + [w.holder.value]), holder := None)
    case QueueUp(message) =>
      w.(conv := w.conv.(queue := w.conv.queue + [message]), bound := w.bound - multiset{message})
    case Stop => if w.o.flags.stopped then w else w.(conv := w.conv.(stopEpoch := w.conv.stopEpoch + 1))
  }

  ghost predicate Legal(w: World, steps: seq<Step>)
    decreases |steps|
  {
    steps == [] || (Enabled(w, steps[0]) && Legal(Apply(w, steps[0]), steps[1..]))
  }

  ghost function After(w: World, steps: seq<Step>): World
    requires Legal(w, steps)
    decreases |steps|
  {
    if steps == [] then w else After(Apply(w, steps[0]), steps[1..])
  }

  predicate Stale(w: World, e: Step) {
    e.Own? && O.StaleRelease(w.o, O.Label(e.t, e.action))
  }

  ghost predicate NoStaleRelease(w: World, steps: seq<Step>)
    requires Legal(w, steps)
    decreases |steps|
  {
    steps == [] || (!Stale(w, steps[0]) && NoStaleRelease(Apply(w, steps[0]), steps[1..]))
  }

  /** Whether a round died with a call unanswered since the last repair or fresh start. */
  function Damage(w: World, e: Step, damaged: bool): bool {
    if e.Run? then R.Damage(Seen(w, e.t), e.l, damaged) else damaged
  }

  ghost predicate Damaged(w: World, steps: seq<Step>, damaged: bool)
    requires Legal(w, steps)
    decreases |steps|
  {
    if steps == [] then damaged else Damaged(Apply(w, steps[0]), steps[1..], Damage(w, steps[0], damaged))
  }

  predicate Init(w: World) {
    w.o == O.INITIAL && R.Init(w.conv) && w.places == map[] && w.holder == None && w.bound == multiset{}
  }

  // ------------------------------------------------- many threads look like one owner

  /** The machine of a single owner that the threads are an implementation of. */
  function Projected(w: World, owner: Option<Tid>): R.State {
    if owner.Some? then Seen(w, owner.value) else w.conv
  }

  predicate Fits(p: O.Phase, c: R.Control) {
    match p
    case Owner(_) => c.Claimed?
    case InRound(_) => !c.Idle? && !c.Managed?
    case AfterRound => c.Finished?
    case Leaving(_) => c.Claimed? || c.Finished?
    case Managing => c.Managed?
    case _ => false
  }

  ghost predicate Coherent(w: World, owner: Option<Tid>) {
    && O.OwnedBy(w.o, owner)
    && w.conv.control.Idle?
    && (forall t: Tid | owner != Some(t) :: Place(w, t).Idle?)
    && (owner.Some? ==> Fits(O.At(w.o, owner.value), Place(w, owner.value)))
    && (w.holder.Some? ==> w.holder.value.role == User && R.TakesExternal(Projected(w, owner).control))
    && (forall m | m in w.bound :: m.role == User)
  }

  function NextOwner(w: World, owner: Option<Tid>, e: Step): Option<Tid>
    requires Enabled(w, e)
  {
    if e.Own? then O.OwnerAfter(Ready(w), owner, O.Label(e.t, e.action)) else owner
  }

  /** What the step is for the single owner's machine: one of its steps, or nothing. */
  function LabelOf(w: World, e: Step): Option<R.Label>
    requires Enabled(w, e)
  {
    match e
    case Own(t, action) =>
      (var p := O.At(Locked(w, t, action), t);
       match action
       case TryClaim => if p.Owner? then Some(R.Claim) else None
       case Finish => Some(R.NextRound(p.Owner?))
       case ManagerClaim => if p.Managing? then Some(R.Manage) else None
       case Release => if O.Owns(O.At(w.o, t)) then Some(R.LetGo) else None
       case ManagerRelease => Some(R.LetGo)
       case _ => None)
    case Run(_, l) => Some(l)
    case Force(_, message, _) => Some(R.Enqueue(message))
    case Deliver(_) => None
    case Store => Some(R.External(w.holder.value))
    case QueueUp(message) => Some(R.Enqueue(message))
    case Stop => Some(R.RequestStop)
  }

  predicate Refines(s: R.State, l: Option<R.Label>, t: R.State) {
    if l.None? then t == s else R.Enabled(s, l.value) && t == R.Apply(s, l.value)
  }

  lemma OwnKeepsOwner(w: World, owner: Option<Tid>, t: Tid, action: O.Action)
    requires Coherent(w, owner) && Enabled(w, Own(t, action)) && !Stale(w, Own(t, action))
    ensures O.OwnedBy(Apply(w, Own(t, action)).o, NextOwner(w, owner, Own(t, action)))
  {
    assert O.OwnedBy(Ready(w), owner) by {
      assert forall u: Tid :: O.At(Ready(w), u) == O.At(w.o, u);
    }
    O.OwnerMovesOn(Ready(w), owner, O.Label(t, action));
  }

  /** The step leaves the machine coherent and is one of the single owner's machine. */
  ghost predicate StepRefines(w: World, owner: Option<Tid>, e: Step)
    requires Enabled(w, e)
  {
    && Coherent(Apply(w, e), NextOwner(w, owner, e))
    && Refines(Projected(w, owner), LabelOf(w, e), Projected(Apply(w, e), NextOwner(w, owner, e)))
  }

  lemma QuietOwnRefines(w: World, owner: Option<Tid>, t: Tid, action: O.Action)
    requires Coherent(w, owner) && Enabled(w, Own(t, action))
    requires !action.TryClaim? && !action.ManagerClaim? && !action.Finish?
    requires !action.Release? && !action.ManagerRelease?
    ensures StepRefines(w, owner, Own(t, action))
  {
    OwnKeepsOwner(w, owner, t, action);
    assert O.Owns(O.At(w.o, t)) <==> owner == Some(t);
  }

  lemma ClaimRefines(w: World, owner: Option<Tid>, t: Tid, action: O.Action)
    requires Coherent(w, owner) && Enabled(w, Own(t, action)) && (action.TryClaim? || action.ManagerClaim?)
    ensures StepRefines(w, owner, Own(t, action))
  {
    OwnKeepsOwner(w, owner, t, action);
    assert O.Owns(O.At(w.o, t)) <==> owner == Some(t);
  }

  lemma FinishGoesOn(w: World, owner: Option<Tid>, t: Tid)
    requires Coherent(w, owner) && Enabled(w, Own(t, O.Finish)) && O.At(Locked(w, t, O.Finish), t).Owner?
    ensures StepRefines(w, owner, Own(t, O.Finish))
  {
    OwnKeepsOwner(w, owner, t, O.Finish);
    assert O.Owns(O.At(w.o, t)) <==> owner == Some(t);
  }

  lemma FinishEnds(w: World, owner: Option<Tid>, t: Tid)
    requires Coherent(w, owner) && Enabled(w, Own(t, O.Finish)) && !O.At(Locked(w, t, O.Finish), t).Owner?
    ensures StepRefines(w, owner, Own(t, O.Finish))
  {
    OwnKeepsOwner(w, owner, t, O.Finish);
    assert O.Owns(O.At(w.o, t)) <==> owner == Some(t);
  }

  lemma ReleaseRefines(w: World, owner: Option<Tid>, t: Tid, action: O.Action)
    requires Coherent(w, owner) && Enabled(w, Own(t, action)) && (action.Release? || action.ManagerRelease?)
    requires !Stale(w, Own(t, action))
    ensures StepRefines(w, owner, Own(t, action))
  {
    OwnKeepsOwner(w, owner, t, action);
    assert O.Owns(O.At(w.o, t)) <==> owner == Some(t);
  }

  /** A thread's steps keep it where its phase puts it, and without the history's lock it gets no further
      than a delivery may find it. */
  lemma StaysFitting(p: O.Phase, s: R.State, l: R.Label)
    requires MayRun(p, l) && R.Enabled(s, l) && Fits(p, s.control)
    ensures Fits(p, R.Apply(s, l).control)
    ensures !TakesLock(l) && R.TakesExternal(s.control) ==> R.TakesExternal(R.Apply(s, l).control)
  {
  }

  lemma RunRefines(w: World, owner: Option<Tid>, t: Tid, l: R.Label)
    requires Coherent(w, owner) && Enabled(w, Run(t, l))
    ensures StepRefines(w, owner, Run(t, l))
  {
    assert O.Owns(O.At(w.o, t));
    assert owner == Some(t);
    StaysFitting(O.At(w.o, t), Seen(w, t), l);
  }

  lemma ForceRefines(w: World, owner: Option<Tid>, e: Step)
    requires Coherent(w, owner) && Enabled(w, e) && e.Force?
    ensures StepRefines(w, owner, e)
  {
    assert !O.Owns(O.At(w.o, e.t));
    assert forall u | u != e.t :: O.At(Apply(w, e).o, u) == O.At(w.o, u);
  }

  lemma DeliverRefines(w: World, owner: Option<Tid>, message: Message)
    requires Coherent(w, owner) && Enabled(w, Deliver(message))
    ensures StepRefines(w, owner, Deliver(message))
  {
  }

  lemma StoreRefines(w: World, owner: Option<Tid>)
    requires Coherent(w, owner) && Enabled(w, Store)
    ensures StepRefines(w, owner, Store)
  {
  }

  lemma QueueUpRefines(w: World, owner: Option<Tid>, message: Message)
    requires Coherent(w, owner) && Enabled(w, QueueUp(message))
    ensures StepRefines(w, owner, QueueUp(message))
  {
  }

  lemma StopRefines(w: World, owner: Option<Tid>)
    requires Coherent(w, owner)
    ensures StepRefines(w, owner, Stop)
  {
  }

  /** As long as no stale release happens, every step of any thread is a step of the single owner's
      machine, or nothing to it. */
  lemma EveryStepRefines(w: World, owner: Option<Tid>, e: Step)
    requires Coherent(w, owner) && Enabled(w, e) && !Stale(w, e)
    ensures StepRefines(w, owner, e)
  {
    match e
    case Own(t, action) =>
      if action.TryClaim? || action.ManagerClaim? {
        ClaimRefines(w, owner, t, action);
      } else if action.Finish? {
        if O.At(Locked(w, t, action), t).Owner? {
          FinishGoesOn(w, owner, t);
        } else {
          FinishEnds(w, owner, t);
        }
      } else if action.Release? || action.ManagerRelease? {
        ReleaseRefines(w, owner, t, action);
      } else {
        QuietOwnRefines(w, owner, t, action);
      }
    case Run(t, l) => RunRefines(w, owner, t, l);
    case Force(_, _, _) => ForceRefines(w, owner, e);
    case Deliver(message) => DeliverRefines(w, owner, message);
    case Store => StoreRefines(w, owner);
    case QueueUp(message) => QueueUpRefines(w, owner, message);
    case Stop => StopRefines(w, owner);
  }

  // --------------------------------------------------------------- over every interleaving

  /** Without a stale release, what all threads together do to the conversation is a run of the single
      owner's machine, which every theorem about that machine then applies to. */
  lemma {:induction false} ThreadsRefineOneOwner(w: World, owner: Option<Tid>, steps: seq<Step>, damaged: bool)
    returns (last: Option<Tid>, run: seq<R.Label>)
    requires Coherent(w, owner) && Legal(w, steps) && NoStaleRelease(w, steps)
    ensures Coherent(After(w, steps), last)
    ensures R.Legal(Projected(w, owner), run)
    ensures R.After(Projected(w, owner), run) == Projected(After(w, steps), last)
    ensures R.Damaged(Projected(w, owner), run, damaged) == Damaged(w, steps, damaged)
    decreases |steps|
  {
    if steps == [] {
      last, run := owner, [];
    } else {
      var e := steps[0];
      EveryStepRefines(w, owner, e);
      var rest;
      last, rest := ThreadsRefineOneOwner(Apply(w, e), NextOwner(w, owner, e), steps[1..], Damage(w, e, damaged));
      if LabelOf(w, e).None? {
        run := rest;
      } else {
        run := [LabelOf(w, e).value] + rest;
        OneStepMore(Projected(w, owner), LabelOf(w, e).value, rest, damaged);
        DamageSeen(w, owner, e, damaged);
      }
    }
  }

  lemma OneStepMore(s: R.State, l: R.Label, rest: seq<R.Label>, damaged: bool)
    requires R.Enabled(s, l) && R.Legal(R.Apply(s, l), rest)
    ensures R.Legal(s, [l] + rest) && R.After(s, [l] + rest) == R.After(R.Apply(s, l), rest)
    ensures R.Damaged(s, [l] + rest, damaged) == R.Damaged(R.Apply(s, l), rest, R.Damage(s, l, damaged))
  {
    assert ([l] + rest)[1..] == rest;
  }

  lemma DamageSeen(w: World, owner: Option<Tid>, e: Step, damaged: bool)
    requires Coherent(w, owner) && Enabled(w, e) && LabelOf(w, e).Some?
    ensures R.Damage(Projected(w, owner), LabelOf(w, e).value, damaged) == Damage(w, e, damaged)
  {
    if e.Run? {
      assert O.Owns(O.At(w.o, e.t));
    }
  }

  lemma InitCoherent(w: World)
    requires Init(w)
    ensures Coherent(w, None) && Projected(w, None) == w.conv
  {
  }

  /** Over every interleaving of askers, managers, deliveries and stops without a stale release: whoever
      sends a request sends a well-formed one, and a conversation nobody runs is well formed, unless a
      round died with a call unanswered since the last repair; and whoever has finished or stopped a
      round leaves a well-formed history even then. */
  lemma SharedRequestsWellFormed(w: World, steps: seq<Step>, t: Tid)
    requires Init(w) && Legal(w, steps) && NoStaleRelease(w, steps)
    ensures var v := After(w, steps);
            && (Place(v, t).Finished? && Place(v, t).outcome != R.Failed ==> WellFormed(v.conv.history))
            && (!Damaged(w, steps, false) ==>
                  && (Place(v, t).Waiting? ==> WellFormed(Place(v, t).request))
                  && (!v.o.flags.active ==> WellFormed(v.conv.history)))
  {
    InitCoherent(w);
    var last, run := ThreadsRefineOneOwner(w, None, steps, false);
    R.RequestsAndHistoriesWellFormed(w.conv, run);
  }

  /** And however many threads there are, a round starts at most one more request with the history or
      tool call after a stop, and at most one summarizing request. */
  lemma SharedRoundStops(w: World, steps: seq<Step>)
    requires Init(w) && Legal(w, steps) && NoStaleRelease(w, steps)
    ensures After(w, steps).conv.late <= 1 && After(w, steps).conv.asked <= 1
  {
    InitCoherent(w);
    var last, run := ThreadsRefineOneOwner(w, None, steps, false);
    LateStarts.AtMostOneLateStart(w.conv, run);
  }

  // ------------------------------------------------------------- messages on their way

  function QueuedBy(e: Step): History {
    match e
    case Force(_, message, _) => [message]
    case QueueUp(message) => [message]
    case _ => []
  }

  /** What deliveries and forced questions put into the queue. */
  function Queued(steps: seq<Step>): History {
    if steps == [] then [] else QueuedBy(steps[0]) + Queued(steps[1..])
  }

  function Gained(w: World, e: Step): History
    requires Enabled(w, e)
  {
    if e.Run? then R.Gain(e.l, w.conv.history, Apply(w, e).conv.history) else []
  }

  /** What the merges of all threads appended to the history. */
  ghost function Merged(w: World, steps: seq<Step>): History
    requires Legal(w, steps)
    decreases |steps|
  {
    if steps == [] then [] else Gained(w, steps[0]) + Merged(Apply(w, steps[0]), steps[1..])
  }

  predicate Clears(w: World, e: Step) {
    e.Run? && R.Clears(Seen(w, e.t), e.l)
  }

  ghost predicate NothingCleared(w: World, steps: seq<Step>)
    requires Legal(w, steps)
    decreases |steps|
  {
    steps == [] || (!Clears(w, steps[0]) && NothingCleared(Apply(w, steps[0]), steps[1..]))
  }

  lemma StepHands(w: World, e: Step)
    requires Enabled(w, e)
    ensures !Clears(w, e) ==> Gained(w, e) + Apply(w, e).conv.queue == w.conv.queue + QueuedBy(e)
    ensures Clears(w, e) ==> |Gained(w, e) + Apply(w, e).conv.queue| < |w.conv.queue + QueuedBy(e)|
  {
    if e.Run? && !Clears(w, e) {
      R.StepHands(Seen(w, e.t), e.l);
    }
  }

  lemma {:induction false} NothingIsDoubled(w: World, steps: seq<Step>)
    requires Legal(w, steps)
    ensures |Merged(w, steps) + After(w, steps).conv.queue| <= |w.conv.queue + Queued(steps)|
    ensures !NothingCleared(w, steps) ==>
              |Merged(w, steps) + After(w, steps).conv.queue| < |w.conv.queue + Queued(steps)|
    decreases |steps|
  {
    if steps != [] {
      StepHands(w, steps[0]);
      var v := Apply(w, steps[0]);
      assert !Clears(w, steps[0]) ==>
          |Gained(w, steps[0]) + v.conv.queue| == |w.conv.queue + QueuedBy(steps[0])|;
      NothingIsDoubled(v, steps[1..]);
    }
  }

  lemma {:induction false} NothingIsReordered(w: World, steps: seq<Step>)
    requires Legal(w, steps) && NothingCleared(w, steps)
    ensures Merged(w, steps) + After(w, steps).conv.queue == w.conv.queue + Queued(steps)
    decreases |steps|
  {
    if steps != [] {
      var v, rest := Apply(w, steps[0]), steps[1..];
      StepHands(w, steps[0]);
      NothingIsReordered(v, rest);
      R.HandedOn(Gained(w, steps[0]), Merged(v, rest), After(v, rest).conv.queue, v.conv.queue, Queued(rest),
                 w.conv.queue, QueuedBy(steps[0]));
    }
  }

  /** Over every interleaving, even after a stale release: what the threads merged, followed by what still
      waits, is what was waiting and queued, in order, exactly as long as no model switch finds messages
      waiting. Two owners that drain the queue at once neither lose nor double a message. */
  lemma SharedMessagesArrive(w: World, steps: seq<Step>)
    requires Legal(w, steps)
    ensures Merged(w, steps) + After(w, steps).conv.queue == w.conv.queue + Queued(steps)
            <==> NothingCleared(w, steps)
  {
    NothingIsDoubled(w, steps);
    if NothingCleared(w, steps) {
      NothingIsReordered(w, steps);
    }
  }
}
