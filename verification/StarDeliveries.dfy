/** That the star delivers: a request reaches exactly those it is for, and the reply to it its caller. */
module StarDeliveries {
  import opened Common
  import opened Star
  import StarResults

  predicate IsBot(s: State, node: string) {
    node in s.online && s.online[node]
  }

  /** A frame from `sender` to `target`, or to everybody, is for this node. */
  predicate IsFor(s: State, sender: string, target: string, everybody: bool, node: string) {
    node in s.online && if everybody then node != sender else node == target
  }

  // ------------------------------------------------------------------ who has to get it

  /** The step sends the request on to this node: the hub takes it from somebody who is no bot, or asks
      itself. */
  predicate MakesDue(s: State, e: Step, rid: Rid, node: string) {
    match e
    case AtHub(p, _) =>
      && Carries(p, rid) && !p.frame.ping && !IsBot(s, p.hop.node) && !ForHub(s, p.frame.target)
      && IsFor(s, p.hop.node, p.frame.target, p.frame.target == "*", node)
    case Ask(id, q, _, _) =>
      id == rid && q.origin == s.hub && !ForHub(s, q.target) && IsFor(s, s.hub, q.target, false, node)
    case _ => false
  }

  ghost predicate Due(s: State, steps: seq<Step>, rid: Rid, node: string)
    requires Legal(s, steps)
    decreases |steps|
  {
    steps != [] && (MakesDue(s, steps[0], rid, node) || Due(Next(s, steps[0]), steps[1..], rid, node))
  }

  predicate OnLinkTo(p: Packet, rid: Rid, node: string) {
    Carries(p, rid) && p.hop == Down(node)
  }

  ghost predicate Underway(s: State, rid: Rid, node: string) {
    exists p | p in s.net :: OnLinkTo(p, rid, node)
  }

  predicate Takes(e: Step, rid: Rid, node: string) {
    e.AtNode? && OnLinkTo(e.p, rid, node)
  }

  predicate Loses(e: Step, rid: Rid, node: string) {
    e.Lose? && OnLinkTo(e.p, rid, node)
  }

  predicate Taken(steps: seq<Step>, rid: Rid, node: string) {
    exists e | e in steps :: Takes(e, rid, node)
  }

  predicate Lost(steps: seq<Step>, rid: Rid, node: string) {
    exists e | e in steps :: Loses(e, rid, node)
  }

  lemma StillUnderway(s: State, t: State, p: Packet, rid: Rid, node: string)
    requires Underway(s, rid, node) && !OnLinkTo(p, rid, node) && forall q | q in s.net && q != p :: q in t.net
    ensures Underway(t, rid, node)
  {
    var q :| q in s.net && OnLinkTo(q, rid, node);
    assert q in t.net;
  }

  lemma HubSendsOn(s: State, p: Packet, answer: string, rid: Rid, node: string)
    requires p in s.net && p.hop.Up? && MakesDue(s, AtHub(p, answer), rid, node)
    ensures Underway(Next(s, AtHub(p, answer)), rid, node)
  {
    var f := p.frame;
    var q := Packet(s.clock, Down(node), Message(rid, p.hop.node, f.target, f.ping, f.body));
    assert q in Next(s, AtHub(p, answer)).net && OnLinkTo(q, rid, node);
  }

  lemma HubSendsOnly(s: State, p: Packet, answer: string, q: Packet, rid: Rid, node: string)
    requires p in s.net && p.hop.Up? && q in Next(s, AtHub(p, answer)).net && q !in s.net && OnLinkTo(q, rid, node)
    ensures MakesDue(s, AtHub(p, answer), rid, node)
  {
    if p.frame.Message? {
      RouteSendsOnly(s, p, answer, q, rid, node);
    } else {
      OthersAskNothing(s, p, answer, q, rid);
    }
  }

  lemma RouteSendsOnly(s: State, p: Packet, answer: string, q: Packet, rid: Rid, node: string)
    requires p in s.net && p.hop.Up? && p.frame.Message?
    requires q in Next(s, AtHub(p, answer)).net && q !in s.net && OnLinkTo(q, rid, node)
    ensures MakesDue(s, AtHub(p, answer), rid, node)
  {
  }

  lemma OthersAskNothing(s: State, p: Packet, answer: string, q: Packet, rid: Rid)
    requires p in s.net && p.hop.Up? && !p.frame.Message? && q in Next(s, AtHub(p, answer)).net && Carries(q, rid)
    ensures q in s.net
  {
  }

  lemma HubPasses(s: State, p: Packet, answer: string, rid: Rid, node: string)
    requires p in s.net && p.hop.Up?
    ensures Underway(Next(s, AtHub(p, answer)), rid, node) <==>
            Underway(s, rid, node) || MakesDue(s, AtHub(p, answer), rid, node)
  {
    var t := Next(s, AtHub(p, answer));
    if Underway(s, rid, node) {
      HubKeepsOthers(s, p, answer);
      StillUnderway(s, t, p, rid, node);
    } else if MakesDue(s, AtHub(p, answer), rid, node) {
      HubSendsOn(s, p, answer, rid, node);
    } else if Underway(t, rid, node) {
      var q :| q in t.net && OnLinkTo(q, rid, node);
      HubSendsOnly(s, p, answer, q, rid, node);
    }
  }

  lemma HubKeepsOthers(s: State, p: Packet, answer: string)
    requires p in s.net && p.hop.Up?
    ensures forall q | q in s.net && q != p :: q in Next(s, AtHub(p, answer)).net
  {
  }

  lemma NodePasses(s: State, p: Packet, answer: string, rid: Rid, node: string)
    requires p in s.net && p.hop.Down?
    ensures Underway(s, rid, node) <==>
            Underway(Next(s, AtNode(p, answer)), rid, node) || OnLinkTo(p, rid, node)
  {
    var t := Next(s, AtNode(p, answer));
    if Underway(s, rid, node) && !OnLinkTo(p, rid, node) {
      StillUnderway(s, t, p, rid, node);
    }
  }

  lemma AskPasses(s: State, e: Step, rid: Rid, node: string)
    requires Enabled(s, e) && e.Ask?
    ensures Underway(Next(s, e), rid, node) <==> Underway(s, rid, node) || MakesDue(s, e, rid, node)
  {
    var t := Next(s, e);
    if MakesDue(s, e, rid, node) {
      var q := e.request;
      assert Packet(s.clock, Down(node), Message(rid, q.origin, q.target, q.ping, q.body)) in t.net;
    }
    assert forall p | p in s.net :: p in t.net;
  }

  /** What goes towards a node stays on its link until the node takes it or the link loses it. */
  lemma StepPasses(s: State, e: Step, rid: Rid, node: string)
    requires Enabled(s, e)
    ensures Underway(s, rid, node) || MakesDue(s, e, rid, node) <==>
            Underway(Next(s, e), rid, node) || Takes(e, rid, node) || Loses(e, rid, node)
  {
    match e
    case AtHub(p, answer) => HubPasses(s, p, answer, rid, node);
    case AtNode(p, answer) => NodePasses(s, p, answer, rid, node);
    case Ask(_, _, _, _) => AskPasses(s, e, rid, node);
    case Lose(p) =>
      if Underway(s, rid, node) && !OnLinkTo(p, rid, node) {
        StillUnderway(s, Next(s, e), p, rid, node);
      }
    case _ =>
      assert forall p | p in s.net :: p in Next(s, e).net;
  }

  lemma {:induction false} RunPasses(s: State, steps: seq<Step>, rid: Rid, node: string)
    requires Legal(s, steps)
    ensures Underway(s, rid, node) || Due(s, steps, rid, node) <==>
            Underway(Run(s, steps), rid, node) || Taken(steps, rid, node) || Lost(steps, rid, node)
    decreases |steps|
  {
    if steps != [] {
      var e, rest := steps[0], steps[1..];
      StepPasses(s, e, rid, node);
      RunPasses(Next(s, e), rest, rid, node);
      assert forall x :: x in steps <==> x == e || x in rest;
    }
  }

  // ---------------------------------------------------------------- who handles it

  lemma DoneByOneMore(log: seq<Handling>, h: Handling, rid: Rid, who: string)
    ensures DoneBy(log + [h], rid, who) <==> DoneBy(log, rid, who) || (h.rid == rid && h.who == who)
  {
    assert forall i | 0 <= i < |log| :: (log + [h])[i] == log[i];
    assert (log + [h])[|log|] == h;
  }

  lemma HubLog(s: State, p: Packet, answer: string) returns (h: Handling)
    requires p in s.net && p.hop.Up?
    ensures h.who == s.hub
    ensures var log := Next(s, AtHub(p, answer)).log;
            log == s.log || log == s.log + [h]
  {
    h := Handling(s.hub, if p.frame.Message? then p.frame.rid else 0, if p.frame.Message? then p.frame.body else "",
                  answer);
  }

  lemma NodeLog(s: State, p: Packet, answer: string)
    requires p in s.net && p.hop.Down?
    ensures Next(s, AtNode(p, answer)).log ==
            if p.frame.Message? && !p.frame.ping
            then s.log + [Handling(p.hop.node, p.frame.rid, p.frame.body, answer)] else s.log
  {
  }

  lemma AskLog(s: State, e: Step) returns (h: Handling)
    requires Enabled(s, e) && e.Ask?
    ensures h.who == s.hub && (Next(s, e).log == s.log || Next(s, e).log == s.log + [h])
  {
    h := Handling(s.hub, e.rid, e.request.body, e.answer);
  }

  lemma StepHandles(s: State, e: Step, rid: Rid, node: string)
    requires Inv(s) && Enabled(s, e) && node != s.hub && NoPing(s, rid)
    ensures DoneBy(Next(s, e).log, rid, node) <==> DoneBy(s.log, rid, node) || Takes(e, rid, node)
  {
    if e.AtNode? {
      assert Honest(s, e.p);
      NodeLog(s, e.p, e.answer);
      if e.p.frame.Message? {
        DoneByOneMore(s.log, Handling(e.p.hop.node, e.p.frame.rid, e.p.frame.body, e.answer), rid, node);
      }
    } else if e.AtHub? {
      var h := HubLog(s, e.p, e.answer);
      DoneByOneMore(s.log, h, rid, node);
    } else if e.Ask? {
      var h := AskLog(s, e);
      DoneByOneMore(s.log, h, rid, node);
    }
  }

  predicate NoPing(s: State, rid: Rid) {
    rid in s.asked ==> !s.asked[rid].ping
  }

  lemma {:induction false} NoPingBefore(s: State, steps: seq<Step>, rid: Rid)
    requires Legal(s, steps) && NoPing(Run(s, steps), rid)
    ensures NoPing(s, rid)
    decreases |steps|
  {
    if steps != [] {
      NoPingBefore(Next(s, steps[0]), steps[1..], rid);
      StarResults.AskedStep(s, steps[0], rid);
    }
  }

  lemma {:induction false} RunHandles(s: State, steps: seq<Step>, rid: Rid, node: string)
    requires Inv(s) && Legal(s, steps) && node != s.hub && NoPing(Run(s, steps), rid)
    ensures DoneBy(Run(s, steps).log, rid, node) <==> DoneBy(s.log, rid, node) || Taken(steps, rid, node)
    decreases |steps|
  {
    if steps != [] {
      var e, rest := steps[0], steps[1..];
      NoPingBefore(s, steps, rid);
      StepHandles(s, e, rid, node);
      NextKeeps(s, e);
      HubStays(s, e);
      RunHandles(Next(s, e), rest, rid, node);
      assert forall x :: x in steps <==> x == e || x in rest;
    }
  }

  /** Over every run: a request that is more than a ping is on the link to a node, or handled by it, or lost
      on that link, exactly if the hub took it from somebody who was no bot while the node it is for was
      online (or everybody's, while this one was), or asked the node itself. */
  lemma ReachesExactlyItsReceivers(hub: string, steps: seq<Step>, rid: Rid, node: string)
    requires Legal(Init(hub), steps) && node != hub && NoPing(Run(Init(hub), steps), rid)
    ensures var s := Run(Init(hub), steps);
            Underway(s, rid, node) || DoneBy(s.log, rid, node) || Lost(steps, rid, node) <==>
            Due(Init(hub), steps, rid, node)
  {
    RunPasses(Init(hub), steps, rid, node);
    RunHandles(Init(hub), steps, rid, node);
  }

  // ------------------------------------------------------------------- what is answered

  /** Why the hub answers a request it takes, and how. */
  predicate HubAnswers(s: State, p: Packet, answer: string, payload: Payload)
    requires p.frame.Message?
  {
    var f := p.frame;
    match payload
    case Pong => f.ping
    case Refused => !f.ping && IsBot(s, p.hop.node)
    case Handled(who, what) =>
      !f.ping && !IsBot(s, p.hop.node) && ForHub(s, f.target) && who == s.hub && what == answer
    case Broadcast => !f.ping && !IsBot(s, p.hop.node) && !ForHub(s, f.target) && f.target == "*"
    case Unknown =>
      !f.ping && !IsBot(s, p.hop.node) && !ForHub(s, f.target) && f.target != "*" && f.target !in s.online
    case Dropped => false
  }

  /** The step draws this reply to the request. */
  predicate Draws(s: State, e: Step, rid: Rid, payload: Payload) {
    match e
    case AtHub(p, answer) => Carries(p, rid) && HubAnswers(s, p, answer, payload)
    case AtNode(p, answer) =>
      Carries(p, rid) && payload == if p.frame.ping then Pong else Handled(p.hop.node, answer)
    case Ask(id, q, wait, answer) =>
      id == rid && wait && q.origin == s.hub && ForHub(s, q.target) && payload == Handled(s.hub, answer)
    case Abort(id) => id == rid && payload == Dropped
    case _ => false
  }

  ghost predicate Drawn(s: State, steps: seq<Step>, rid: Rid, payload: Payload)
    requires Legal(s, steps)
    decreases |steps|
  {
    steps != [] && (Draws(s, steps[0], rid, payload) || Drawn(Next(s, steps[0]), steps[1..], rid, payload))
  }

  predicate Brings(p: Packet, rid: Rid, payload: Payload) {
    p.frame.Reply? && p.frame.rid == rid && p.frame.payload == payload
  }

  /** This reply to the request is on a link or in the caller's box. */
  ghost predicate Seen(s: State, rid: Rid, payload: Payload) {
    (exists p | p in s.net :: Brings(p, rid, payload)) || (rid in s.callers && s.callers[rid].box == Some(payload))
  }

  /** What the hub sends for a request carries the reply it draws, or none. */
  lemma RouteShowsTruth(s: State, p: Packet, answer: string, q: Packet)
    requires p in s.net && p.hop.Up? && p.frame.Message?
    requires q in Next(s, AtHub(p, answer)).net && q !in s.net && q.frame.Reply?
    ensures q.frame.rid == p.frame.rid && HubAnswers(s, p, answer, q.frame.payload)
  {
  }

  lemma HubShowsTruth(s: State, p: Packet, answer: string, rid: Rid, payload: Payload)
    requires p in s.net && p.hop.Up? && Seen(Next(s, AtHub(p, answer)), rid, payload)
    ensures Seen(s, rid, payload) || Draws(s, AtHub(p, answer), rid, payload)
  {
    var t := Next(s, AtHub(p, answer));
    if p.frame.Message? {
      HubLeavesBoxes(s, p, answer);
      if q :| q in t.net && Brings(q, rid, payload) && q !in s.net {
        RouteShowsTruth(s, p, answer, q);
      }
    } else if p.frame.Event? {
      HubLeavesBoxes(s, p, answer);
      HubTellsNothing(s, p, answer, rid, payload);
    } else {
      PassedOnTruth(s, p, answer, rid, payload);
    }
  }

  lemma HubLeavesBoxes(s: State, p: Packet, answer: string)
    requires p in s.net && p.hop.Up? && !p.frame.Reply?
    ensures Next(s, AtHub(p, answer)).callers == s.callers
  {
  }

  lemma HubTellsNothing(s: State, p: Packet, answer: string, rid: Rid, payload: Payload)
    requires p in s.net && p.hop.Up? && p.frame.Event?
    ensures forall q | q in Next(s, AtHub(p, answer)).net && Brings(q, rid, payload) :: q in s.net
  {
  }

  lemma PassedOnTruth(s: State, p: Packet, answer: string, rid: Rid, payload: Payload)
    requires p in s.net && p.hop.Up? && p.frame.Reply? && Seen(Next(s, AtHub(p, answer)), rid, payload)
    ensures Seen(s, rid, payload)
  {
    var t := Next(s, AtHub(p, answer));
    if q :| q in t.net && Brings(q, rid, payload) && q !in s.net {
      assert Brings(p, rid, payload);
    } else if rid in t.callers && t.callers[rid].box == Some(payload) && t.callers != s.callers {
      assert p.frame.rid == rid ==> Brings(p, rid, payload);
    }
  }

  lemma NodeShowsTruth(s: State, p: Packet, answer: string, rid: Rid, payload: Payload)
    requires p in s.net && p.hop.Down? && Seen(Next(s, AtNode(p, answer)), rid, payload)
    ensures Seen(s, rid, payload) || Draws(s, AtNode(p, answer), rid, payload)
  {
    var t := Next(s, AtNode(p, answer));
    if rid in t.callers && t.callers[rid].box == Some(payload) && t.callers != s.callers {
      assert p.frame.Reply?;
      assert p.frame.rid == rid ==> Brings(p, rid, payload);
    }
  }

  lemma StepShowsTruth(s: State, e: Step, rid: Rid, payload: Payload)
    requires Enabled(s, e) && Seen(Next(s, e), rid, payload)
    ensures Seen(s, rid, payload) || Draws(s, e, rid, payload)
  {
    match e
    case AtHub(p, answer) => HubShowsTruth(s, p, answer, rid, payload);
    case AtNode(p, answer) => NodeShowsTruth(s, p, answer, rid, payload);
    case _ =>
  }

  lemma {:induction false} RunShowsTruth(s: State, steps: seq<Step>, rid: Rid, payload: Payload)
    requires Legal(s, steps) && Seen(Run(s, steps), rid, payload)
    ensures Seen(s, rid, payload) || Drawn(s, steps, rid, payload)
    decreases |steps|
  {
    if steps != [] {
      RunShowsTruth(Next(s, steps[0]), steps[1..], rid, payload);
      if Seen(Next(s, steps[0]), rid, payload) {
        StepShowsTruth(s, steps[0], rid, payload);
      }
    }
  }

  /** Over every run every reply, on a link or in a caller's box, is true: it says "unknown" only if the
      hub took the request while nobody of that name was online, "refused" only if it came from a bot,
      "broadcast" only if it was for everybody, carries an answer only if that one handled it so, and
      "dropped" only if the caller's link was. */
  lemma RepliesAreTrue(hub: string, steps: seq<Step>, rid: Rid, payload: Payload)
    requires Legal(Init(hub), steps) && Seen(Run(Init(hub), steps), rid, payload)
    ensures Drawn(Init(hub), steps, rid, payload)
  {
    RunShowsTruth(Init(hub), steps, rid, payload);
  }

  /** A reply on its way names the one who gave it. */
  predicate TrueSource(p: Packet) {
    p.frame.Reply? ==>
      && (p.hop.Up? ==> p.frame.source == p.hop.node)
      && (p.frame.payload.Handled? ==> p.frame.source == p.frame.payload.who)
  }

  lemma NodeNamesItself(s: State, p: Packet, answer: string)
    requires p in s.net && p.hop.Down? && forall q | q in s.net :: TrueSource(q)
    ensures forall q | q in Next(s, AtNode(p, answer)).net :: TrueSource(q)
  {
  }

  lemma HubNamesSources(s: State, p: Packet, answer: string)
    requires p in s.net && p.hop.Up? && forall q | q in s.net :: TrueSource(q)
    ensures forall q | q in Next(s, AtHub(p, answer)).net :: TrueSource(q)
  {
    if p.frame.Message? {
      HubNamesItself(s, p, answer);
    }
  }

  lemma HubNamesItself(s: State, p: Packet, answer: string)
    requires p in s.net && p.hop.Up? && p.frame.Message? && forall q | q in s.net :: TrueSource(q)
    ensures forall q | q in Next(s, AtHub(p, answer)).net :: TrueSource(q)
  {
  }

  lemma AskNamesNobody(s: State, e: Step)
    requires Enabled(s, e) && e.Ask? && forall q | q in s.net :: TrueSource(q)
    ensures forall q | q in Next(s, e).net :: TrueSource(q)
  {
  }

  /** Over every run a reply names the one who gave it, on both of its links. */
  lemma {:induction false} SourcesAreTrue(s: State, steps: seq<Step>)
    requires Legal(s, steps) && forall q | q in s.net :: TrueSource(q)
    ensures forall q | q in Run(s, steps).net :: TrueSource(q)
    decreases |steps|
  {
    if steps != [] {
      var e := steps[0];
      match e {
        case AtHub(p, answer) => HubNamesSources(s, p, answer);
        case AtNode(p, answer) => NodeNamesItself(s, p, answer);
        case Ask(_, _, _, _) => AskNamesNobody(s, e);
        case _ =>
      }
      SourcesAreTrue(Next(s, e), steps[1..]);
    }
  }

  // ------------------------------------------------------------------------ the way back

  /** The request or a reply to it. */
  predicate Concerns(p: Packet, rid: Rid) {
    !p.frame.Event? && p.frame.rid == rid
  }

  ghost predicate OnItsWay(s: State, rid: Rid) {
    exists p | p in s.net :: Concerns(p, rid)
  }

  /** The request's caller gets no reply: a link loses it or its reply, or the reply comes to the hub while
      the caller's node is not online. */
  predicate Fails(s: State, e: Step, rid: Rid) {
    || (e.Lose? && Concerns(e.p, rid))
    || (e.AtHub? && e.p.frame.Reply? && e.p.frame.rid == rid
        && !ForHub(s, e.p.frame.target) && e.p.frame.target !in s.online)
  }

  ghost predicate Failed(s: State, steps: seq<Step>, rid: Rid)
    requires Legal(s, steps)
    decreases |steps|
  {
    steps != [] && (Fails(s, steps[0], rid) || Failed(Next(s, steps[0]), steps[1..], rid))
  }

  /** A caller that is listed has its reply, or will get one. */
  ghost predicate Cared(s: State, rid: Rid) {
    rid in s.callers && s.callers[rid].listed ==> OnItsWay(s, rid) || s.callers[rid].box.Some?
  }

  lemma StillOnItsWay(s: State, t: State, p: Packet, rid: Rid)
    requires OnItsWay(s, rid) && !Concerns(p, rid) && forall q | q in s.net && q != p :: q in t.net
    ensures OnItsWay(t, rid)
  {
    var q :| q in s.net && Concerns(q, rid);
    assert q in t.net;
  }

  /** The hub sends on, answers, or takes the reply for itself. */
  lemma HubCares(s: State, p: Packet, answer: string, rid: Rid)
    requires Inv(s) && Named(s) && p in s.net && p.hop.Up? && Cared(s, rid) && !Fails(s, AtHub(p, answer), rid)
    ensures Cared(Next(s, AtHub(p, answer)), rid)
  {
    var t := Next(s, AtHub(p, answer));
    assert Honest(s, p);
    if Concerns(p, rid) {
      if p.frame.Message? {
        HubMovesOn(s, p, answer);
      } else if !ForHub(s, p.frame.target) {
        var f := p.frame;
        var q := Packet(s.clock, Down(f.target), Reply(rid, p.hop.node, f.target, f.payload));
        assert q in t.net && Concerns(q, rid);
      }
    } else if OnItsWay(s, rid) {
      StillOnItsWay(s, t, p, rid);
    }
  }

  lemma HubMovesOn(s: State, p: Packet, answer: string)
    requires p in s.net && p.hop.Up? && p.frame.Message?
    ensures OnItsWay(Next(s, AtHub(p, answer)), p.frame.rid)
  {
    var t := Next(s, AtHub(p, answer));
    var f, sender := p.frame, p.hop.node;
    var m := Message(f.rid, sender, f.target, f.ping, f.body);
    var relays := !f.ping && !IsBot(s, sender) && !ForHub(s, f.target) && f.target != "*" && f.target in s.online;
    if relays {
      var q := Packet(s.clock, Down(f.target), m);
      assert q in t.net && Concerns(q, f.rid);
    } else {
      var stamp := t.clock - 1;
      var payload :=
        if f.ping then Pong else if IsBot(s, sender) then Refused
        else if ForHub(s, f.target) then Handled(s.hub, answer) else if f.target == "*" then Broadcast else Unknown;
      var q := Packet(stamp, Down(sender), Reply(f.rid, s.hub, sender, payload));
      assert q in t.net && Concerns(q, f.rid);
    }
  }

  lemma NodeCares(s: State, p: Packet, answer: string, rid: Rid)
    requires Inv(s) && p in s.net && p.hop.Down? && Cared(s, rid)
    ensures Cared(Next(s, AtNode(p, answer)), rid)
  {
    var t := Next(s, AtNode(p, answer));
    assert Honest(s, p);
    if Concerns(p, rid) {
      if p.frame.Message? {
        var payload := if p.frame.ping then Pong else Handled(p.hop.node, answer);
        var q := Packet(s.clock, Up(p.hop.node), Reply(rid, p.hop.node, p.frame.source, payload));
        assert q in t.net && Concerns(q, rid);
      }
    } else if OnItsWay(s, rid) {
      StillOnItsWay(s, t, p, rid);
    }
  }

  lemma AskCares(s: State, e: Step, rid: Rid)
    requires Inv(s) && Enabled(s, e) && e.Ask? && Cared(s, rid)
    ensures Cared(Next(s, e), rid)
  {
    var t := Next(s, e);
    assert forall p | p in s.net :: p in t.net;
    if e.rid == rid && rid in t.callers && t.callers[rid].listed {
      var q := e.request;
      var hop := if q.origin == s.hub then Down(q.target) else Up(q.origin);
      var p := Packet(s.clock, hop, Message(rid, q.origin, q.target, q.ping, q.body));
      assert p in t.net && Concerns(p, rid);
    }
  }

  lemma StepCares(s: State, e: Step, rid: Rid)
    requires Inv(s) && Named(s) && Enabled(s, e) && Cared(s, rid) && !Fails(s, e, rid)
    ensures Cared(Next(s, e), rid)
  {
    match e
    case AtHub(p, answer) => HubCares(s, p, answer, rid);
    case AtNode(p, answer) => NodeCares(s, p, answer, rid);
    case Ask(_, _, _, _) => AskCares(s, e, rid);
    case Lose(p) =>
      if OnItsWay(s, rid) {
        StillOnItsWay(s, Next(s, e), p, rid);
      }
    case _ =>
      assert forall p | p in s.net :: p in Next(s, e).net;
  }

  /** Whoever asks has a name. */
  ghost predicate Named(s: State) {
    forall rid | rid in s.asked :: s.asked[rid].origin != ""
  }

  lemma StepNames(s: State, e: Step)
    requires Enabled(s, e) && Named(s)
    ensures Named(Next(s, e))
  {
    if e.Ask? {
      AskNames(s, e);
    } else {
      StarResults.OnlyAsksAsk(s, e);
    }
  }

  lemma AskNames(s: State, e: Step)
    requires Enabled(s, e) && e.Ask?
    ensures Next(s, e).asked == s.asked[e.rid := e.request]
  {
  }

  lemma {:induction false} RunCares(s: State, steps: seq<Step>, rid: Rid)
    requires Inv(s) && Named(s) && Legal(s, steps) && Cared(s, rid) && !Failed(s, steps, rid)
    ensures Cared(Run(s, steps), rid)
    decreases |steps|
  {
    if steps != [] {
      StepCares(s, steps[0], rid);
      StepNames(s, steps[0]);
      NextKeeps(s, steps[0]);
      RunCares(Next(s, steps[0]), steps[1..], rid);
    }
  }

  /** Over every run: a caller that still waits has its reply, or its request or the reply is on a link,
      unless a link lost it or its reply came to the hub while the caller's node was not online. */
  lemma WaitingCallerIsServed(hub: string, steps: seq<Step>, rid: Rid)
    requires Legal(Init(hub), steps) && !Failed(Init(hub), steps, rid)
    requires var s := Run(Init(hub), steps); rid in s.callers && s.callers[rid].listed
    ensures var s := Run(Init(hub), steps);
            s.callers[rid].box.Some? || exists p | p in s.net :: Concerns(p, rid)
  {
    RunCares(Init(hub), steps, rid);
  }

  /** What the hub asks itself it answers on the spot, and nothing goes out. */
  lemma HubServesItself(s: State, e: Step)
    requires Inv(s) && Enabled(s, e) && e.Ask? && e.request.origin == s.hub && ForHub(s, e.request.target)
    ensures var t := Next(s, e);
            && t.net == s.net && DoneBy(t.log, e.rid, s.hub)
            && (e.wait ==> e.rid in t.callers && t.callers[e.rid].box == Some(Handled(s.hub, e.answer)))
            && (!e.wait ==> t.callers == s.callers)
  {
    DoneByOneMore(s.log, Handling(s.hub, e.rid, e.request.body, e.answer), e.rid, s.hub);
  }

  // -------------------------------------------------------------- who waits, who is there

  /** The call is put on its process's list, which is only done for a frame that is sent. */
  predicate Lists(s: State, e: Step, rid: Rid) {
    && e.Ask? && e.rid == rid && e.wait
    && (e.request.origin == s.hub ==> !ForHub(s, e.request.target) && e.request.target in s.online)
  }

  predicate Unlists(e: Step, rid: Rid) {
    (e.GiveUp? || e.Abort?) && e.rid == rid
  }

  ghost predicate ListedBy(s: State, steps: seq<Step>, rid: Rid, before: bool)
    requires Legal(s, steps)
    decreases |steps|
  {
    if steps == [] then before
    else
      var e := steps[0];
      ListedBy(Next(s, e), steps[1..], rid,
               if Lists(s, e, rid) then true else if Unlists(e, rid) then false else before)
  }

  predicate IsListed(s: State, rid: Rid) {
    rid in s.callers && s.callers[rid].listed
  }

  lemma StepLists(s: State, e: Step, rid: Rid)
    requires Enabled(s, e) && (rid in s.callers ==> rid in s.asked)
    ensures IsListed(Next(s, e), rid) <==>
            if Lists(s, e, rid) then true else if Unlists(e, rid) then false else IsListed(s, rid)
  {
  }

  lemma {:induction false} RunLists(s: State, steps: seq<Step>, rid: Rid)
    requires Inv(s) && Legal(s, steps)
    ensures IsListed(Run(s, steps), rid) <==> ListedBy(s, steps, rid, IsListed(s, rid))
    decreases |steps|
  {
    if steps != [] {
      StepLists(s, steps[0], rid);
      NextKeeps(s, steps[0]);
      RunLists(Next(s, steps[0]), steps[1..], rid);
    }
  }

  /** The call was taken off its list and told that the link dropped. */
  predicate Told(s: State, rid: Rid) {
    rid in s.callers && s.callers[rid] == Caller(s.callers[rid].origin, false, Some(Dropped)) && rid in s.asked
  }

  lemma StepTells(s: State, e: Step, rid: Rid)
    requires Enabled(s, e) && (rid in s.callers ==> rid in s.asked)
    requires Told(s, rid) || e == Abort(rid)
    ensures Told(Next(s, e), rid)
  {
  }

  /** Over every run: a call whose link dropped while it was listed is told so, and nothing it hears later
      takes that back. */
  lemma {:induction false} AbortedIsTold(s: State, steps: seq<Step>, rid: Rid)
    requires Inv(s) && Legal(s, steps) && (Told(s, rid) || Abort(rid) in steps)
    ensures Told(Run(s, steps), rid)
    decreases |steps|
  {
    if steps != [] {
      var e := steps[0];
      if Told(s, rid) || e == Abort(rid) {
        StepTells(s, e, rid);
      }
      NextKeeps(s, e);
      assert forall x | x in steps :: x == e || x in steps[1..];
      AbortedIsTold(Next(s, e), steps[1..], rid);
    }
  }

  /** The kind under which a name is registered, read off the run. */
  function RegisteredAs(steps: seq<Step>, node: string): Option<bool> {
    if steps == [] then None
    else
      match steps[|steps| - 1]
      case Connect(name, bot) => if name == node then Some(bot) else RegisteredAs(steps[..|steps| - 1], node)
      case Disconnect(name) => if name == node then None else RegisteredAs(steps[..|steps| - 1], node)
      case _ => RegisteredAs(steps[..|steps| - 1], node)
  }

  function KindOf(s: State, node: string): Option<bool> {
    if node in s.online then Some(s.online[node]) else None
  }

  lemma HubKeepsOnline(s: State, p: Packet, answer: string)
    requires p in s.net && p.hop.Up?
    ensures Next(s, AtHub(p, answer)).online == s.online
  {
  }

  lemma OthersKeepOnline(s: State, e: Step)
    requires Enabled(s, e) && !e.Connect? && !e.Disconnect?
    ensures Next(s, e).online == s.online
  {
    if e.AtHub? {
      HubKeepsOnline(s, e.p, e.answer);
    }
  }

  lemma {:induction false} RunLast(s: State, steps: seq<Step>)
    requires steps != [] && Legal(s, steps)
    ensures var before := steps[..|steps| - 1];
            && Legal(s, before) && Enabled(Run(s, before), steps[|steps| - 1])
            && Run(s, steps) == Next(Run(s, before), steps[|steps| - 1])
    decreases |steps|
  {
    var before := steps[..|steps| - 1];
    if |steps| > 1 {
      RunLast(Next(s, steps[0]), steps[1..]);
      assert before[1..] == steps[1..][..|steps| - 2];
    }
  }

  /** Over every run a call is on its process's list exactly when it was sent to be waited for and has not
      been given up or aborted since, and a name is online as what it last registered as. */
  lemma ListsAndTableAreTrue(hub: string, steps: seq<Step>, rid: Rid, node: string)
    requires Legal(Init(hub), steps)
    ensures var s := Run(Init(hub), steps);
            && (IsListed(s, rid) <==> ListedBy(Init(hub), steps, rid, false))
            && KindOf(s, node) == RegisteredAs(steps, node)
  {
    RunLists(Init(hub), steps, rid);
    OnlineExactly(hub, steps, node);
  }

  lemma {:induction false} OnlineExactly(hub: string, steps: seq<Step>, node: string)
    requires Legal(Init(hub), steps)
    ensures KindOf(Run(Init(hub), steps), node) == RegisteredAs(steps, node)
    decreases |steps|
  {
    if steps != [] {
      RunLast(Init(hub), steps);
      OnlineExactly(hub, steps[..|steps| - 1], node);
      var e := steps[|steps| - 1];
      if !e.Connect? && !e.Disconnect? {
        OthersKeepOnline(Run(Init(hub), steps[..|steps| - 1]), e);
      }
    }
  }

  // ------------------------------------------------------------------------------ events

  /** The step puts this packet with an event on a link: its sender does, or the hub, which passes it on to
      the node it is for, or to everybody else, unless it came from a bot. */
  predicate Puts(s: State, e: Step, p: Packet) {
    && p.stamp == s.clock && p.frame.Event?
    && match e
       case Tell(origin, target, body, to) =>
         && p.frame == Event(origin, target, body)
         && if origin == s.hub then p.hop.Down? && p.hop.node in to else p.hop == Up(origin)
       case AtHub(q, _) =>
         && q.frame.Event? && p.frame == Event(q.hop.node, q.frame.target, q.frame.body) && p.hop.Down?
         && !IsBot(s, q.hop.node)
         && IsFor(s, q.hop.node, q.frame.target, q.frame.target in ["", "*"], p.hop.node)
       case _ => false
  }

  ghost predicate Put(s: State, steps: seq<Step>, p: Packet)
    requires Legal(s, steps)
    decreases |steps|
  {
    steps != [] && (Puts(s, steps[0], p) || Put(Next(s, steps[0]), steps[1..], p))
  }

  predicate Removes(e: Step, p: Packet) {
    (e.AtHub? || e.AtNode? || e.Lose?) && e.p == p
  }

  lemma HubCarriesEvents(s: State, q: Packet, answer: string, p: Packet)
    requires q in s.net && q.hop.Up? && p.frame.Event?
    ensures p in s.net || Puts(s, AtHub(q, answer), p) <==> p in Next(s, AtHub(q, answer)).net || p == q
  {
    if !q.frame.Event? {
      HubPutsNoEvents(s, q, answer, p);
    }
  }

  lemma HubPutsNoEvents(s: State, q: Packet, answer: string, p: Packet)
    requires q in s.net && q.hop.Up? && p.frame.Event? && !q.frame.Event?
    ensures p in Next(s, AtHub(q, answer)).net <==> p in s.net
  {
    if q.frame.Message? {
      RoutePutsNoEvents(s, q, answer, p);
    }
  }

  lemma RoutePutsNoEvents(s: State, q: Packet, answer: string, p: Packet)
    requires q in s.net && q.hop.Up? && p.frame.Event? && q.frame.Message?
    ensures p in Next(s, AtHub(q, answer)).net <==> p in s.net
  {
  }

  lemma NodePutsNoEvents(s: State, q: Packet, answer: string, p: Packet)
    requires q in s.net && q.hop.Down? && p.frame.Event?
    ensures p in Next(s, AtNode(q, answer)).net <==> p in s.net && p != q
  {
  }

  lemma AskPutsNoEvents(s: State, e: Step, p: Packet)
    requires Enabled(s, e) && e.Ask? && p.frame.Event?
    ensures p in Next(s, e).net <==> p in s.net
  {
  }

  lemma StepCarriesEvents(s: State, e: Step, p: Packet)
    requires Enabled(s, e) && p.frame.Event?
    ensures p in s.net || Puts(s, e, p) <==> p in Next(s, e).net || Removes(e, p)
  {
    match e
    case AtHub(q, answer) => HubCarriesEvents(s, q, answer, p);
    case AtNode(q, answer) => NodePutsNoEvents(s, q, answer, p);
    case Ask(_, _, _, _) => AskPutsNoEvents(s, e, p);
    case _ =>
  }

  /** Over every run: an event is on a link, or taken off it by the one at its end, or lost, exactly if it was
      put there: by its sender, or by the hub for a node it is for, and not for a bot. */
  lemma {:induction false} EventsGoWhereTheyShould(s: State, steps: seq<Step>, p: Packet)
    requires Legal(s, steps) && p.frame.Event?
    ensures p in s.net || Put(s, steps, p) <==>
            p in Run(s, steps).net || exists e | e in steps :: Removes(e, p)
    decreases |steps|
  {
    if steps != [] {
      var e, rest := steps[0], steps[1..];
      StepCarriesEvents(s, e, p);
      EventsGoWhereTheyShould(Next(s, e), rest, p);
      assert forall x :: x in steps <==> x == e || x in rest;
    }
  }
}
