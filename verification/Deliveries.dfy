/** What becomes of the messages that are delivered to a shared conversation. */
module Deliveries {
  import opened Messages
  import opened SharedConversation


  /** What is carried besides the queue. */
  function Others(w: World): multiset<Message> {
    w.bound + if w.holder.Some? then multiset{w.holder.value} else multiset{}
  }

  /** The messages somebody has on its way into the conversation. */
  function Carried(w: World): multiset<Message> {
    multiset(w.conv.queue) + Others(w)
  }

  function DeliveredBy(e: Step): multiset<Message> {
    match e
    case Deliver(message) => multiset{message}
    case Force(_, message, _) => multiset{message}
    case _ => multiset{}
  }

  function Delivered(steps: seq<Step>): multiset<Message> {
    if steps == [] then multiset{} else DeliveredBy(steps[0]) + Delivered(steps[1..])
  }

  function StoredBy(w: World, e: Step): multiset<Message>
    requires Enabled(w, e)
  {
    if e.Store? then multiset{w.holder.value} else multiset{}
  }

  /** What found the conversation idle and went straight into the history. */
  ghost function Stored(w: World, steps: seq<Step>): multiset<Message>
    requires Legal(w, steps)
    decreases |steps|
  {
    if steps == [] then multiset{} else StoredBy(w, steps[0]) + Stored(Apply(w, steps[0]), steps[1..])
  }

  function ClearedBy(w: World, e: Step): multiset<Message> {
    if Clears(w, e) then multiset(w.conv.queue) else multiset{}
  }

  ghost function Cleared(w: World, steps: seq<Step>): multiset<Message>
    requires Legal(w, steps)
    decreases |steps|
  {
    if steps == [] then multiset{} else ClearedBy(w, steps[0]) + Cleared(Apply(w, steps[0]), steps[1..])
  }

  /** A step hands on what it finds, or clears it. */
  ghost predicate Balanced(w: World, e: Step)
    requires Enabled(w, e)
  {
    multiset(Gained(w, e)) + StoredBy(w, e) + Carried(Apply(w, e)) + ClearedBy(w, e) == Carried(w) + DeliveredBy(e)
  }

  lemma OwnKeepsCarried(w: World, e: Step)
    requires Enabled(w, e) && e.Own?
    ensures Apply(w, e).conv.queue == w.conv.queue && Others(Apply(w, e)) == Others(w)
  {
  }

  lemma OwnBalances(w: World, e: Step)
    requires Enabled(w, e) && e.Own?
    ensures Balanced(w, e)
  {
    OwnKeepsCarried(w, e);
  }

  lemma StopBalances(w: World)
    ensures Balanced(w, Stop)
  {
    StopMovesNothing(w);
  }

  lemma StopMovesNothing(w: World)
    ensures var v := Apply(w, Stop); v.conv.queue == w.conv.queue && Others(v) == Others(w)
  {
  }

  lemma HandedOnEvenly(gain: History, left: History, queue: History, others: multiset<Message>)
    requires gain + left == queue
    ensures multiset(gain) + (multiset(left) + others) == multiset(queue) + others
  {
    assert multiset(gain + left) == multiset(gain) + multiset(left);
  }

  lemma RunKeepsOthers(w: World, e: Step)
    requires Enabled(w, e) && e.Run?
    ensures Others(Apply(w, e)) == Others(w)
    ensures Clears(w, e) ==> Apply(w, e).conv.queue == [] && Gained(w, e) == []
  {
  }

  lemma RunBalances(w: World, e: Step)
    requires Enabled(w, e) && e.Run?
    ensures Balanced(w, e)
  {
    StepHands(w, e);
    RunKeepsOthers(w, e);
    var gain, left, queue := Gained(w, e), Apply(w, e).conv.queue, w.conv.queue;
    if !Clears(w, e) {
      assert queue + [] == queue;
      HandedOnEvenly(gain, left, queue, Others(w));
    }
  }

  lemma DeliveryBalances(w: World, e: Step)
    requires Enabled(w, e) && (e.Deliver? || e.Store?)
    ensures Balanced(w, e)
  {
    assert Apply(w, e).conv.queue == w.conv.queue;
  }

  lemma ForceBalances(w: World, e: Step)
    requires Enabled(w, e) && e.Force?
    ensures Balanced(w, e)
  {
    assert multiset(w.conv.queue + [e.message]) == multiset(w.conv.queue) + multiset{e.message};
  }

  lemma QueueUpBalances(w: World, e: Step)
    requires Enabled(w, e) && e.QueueUp?
    ensures Balanced(w, e)
  {
    assert multiset(w.conv.queue + [e.message]) == multiset(w.conv.queue) + multiset{e.message};
    assert w.bound == (w.bound - multiset{e.message}) + multiset{e.message};
  }

  lemma StepBalances(w: World, e: Step)
    requires Enabled(w, e)
    ensures Balanced(w, e)
  {
    match e
    case Own(_, _) => OwnBalances(w, e);
    case Stop => StopBalances(w);
    case Run(_, _) => RunBalances(w, e);
    case Deliver(_) => DeliveryBalances(w, e);
    case Store => DeliveryBalances(w, e);
    case Force(_, _, _) => ForceBalances(w, e);
    case QueueUp(_) => QueueUpBalances(w, e);
  }

  /** Two balances make one. */
  lemma Together(gain: History, stored: multiset<Message>, next: multiset<Message>, lost: multiset<Message>,
                 now: multiset<Message>, came: multiset<Message>, merged: History, stores: multiset<Message>,
                 last: multiset<Message>, losses: multiset<Message>, more: multiset<Message>)
    requires multiset(gain) + stored + next + lost == now + came
    requires multiset(merged) + stores + last + losses == next + more
    ensures multiset(gain + merged) + (stored + stores) + last + (lost + losses) == now + (came + more)
  {
    var all := multiset(gain + merged) + (stored + stores) + last + (lost + losses);
    assert multiset(gain + merged) == multiset(gain) + multiset(merged);
    forall m
      ensures all[m] == (now + (came + more))[m]
    {
      assert (multiset(gain) + stored + next + lost)[m] == (now + came)[m];
      assert (multiset(merged) + stores + last + losses)[m] == (next + more)[m];
    }
  }

  lemma {:induction false} DeliveriesConserved(w: World, steps: seq<Step>)
    requires Legal(w, steps)
    ensures multiset(Merged(w, steps)) + Stored(w, steps) + Carried(After(w, steps)) + Cleared(w, steps) ==
            Carried(w) + Delivered(steps)
    ensures Cleared(w, steps) == multiset{} <==> NothingCleared(w, steps)
    decreases |steps|
  {
    if steps != [] {
      var e, rest := steps[0], steps[1..];
      var v := Apply(w, e);
      StepBalances(w, e);
      DeliveriesConserved(v, rest);
      Together(Gained(w, e), StoredBy(w, e), Carried(v), ClearedBy(w, e), Carried(w), DeliveredBy(e),
               Merged(v, rest), Stored(v, rest), Carried(After(v, rest)), Cleared(v, rest), Delivered(rest));
    }
  }

  /** Every delivered message is stored, merged, queued or still carried, each as often as it was
      delivered, over every interleaving exactly as long as no model switch finds messages waiting. */
  lemma DeliveriesArrive(w: World, steps: seq<Step>)
    requires Legal(w, steps)
    ensures multiset(Merged(w, steps)) + Stored(w, steps) + Carried(After(w, steps)) == Carried(w) + Delivered(steps)
            <==> NothingCleared(w, steps)
  {
    DeliveriesConserved(w, steps);
    var rest := multiset(Merged(w, steps)) + Stored(w, steps) + Carried(After(w, steps));
    assert |rest + Cleared(w, steps)| == |rest| + |Cleared(w, steps)|;
  }

  /** A delivery that finds no round running is stored as the newest message; one that finds a round
      running joins the end of its queue. */
  lemma DeliveryGoes(w: World, message: Message)
    requires Enabled(w, Deliver(message))
    ensures var v := Apply(w, Deliver(message));
            if w.o.flags.stopped
            then Enabled(v, Store) && Apply(v, Store).conv == w.conv.(history := w.conv.history + [message])
            else Enabled(v, QueueUp(message)) &&
                 Apply(v, QueueUp(message)).conv == w.conv.(queue := w.conv.queue + [message])
  {
  }
}
