/** Requests and replies over a star: one hub, honest nodes, and links that may lose or reorder frames.
    Every node has its own name, none has the hub's, and a request id is never used twice. */
module Star {
  import opened Common

  type Rid = nat

  datatype Payload = Handled(who: string, answer: string) | Pong | Refused | Unknown | Broadcast | Dropped

  datatype Frame =
    | Message(rid: Rid, source: string, target: string, ping: bool, body: string)
    | Event(source: string, target: string, body: string)
    | Reply(rid: Rid, source: string, target: string, payload: Payload)

  /** A frame on the link between a node and the hub, in one of the two directions. */
  datatype Hop = Up(node: string) | Down(node: string)

  /** `stamp` tells apart two sendings of the same frame. */
  datatype Packet = Packet(stamp: nat, hop: Hop, frame: Frame)

  datatype Request = Request(origin: string, target: string, ping: bool, body: string)

  /** A call that still has (`listed`) or no longer has an entry among its process's waiting calls. */
  datatype Caller = Caller(origin: string, listed: bool, box: Option<Payload>)

  /** A handler ran for a request and produced an answer. */
  datatype Handling = Handling(who: string, rid: Rid, body: string, answer: string)

  /** Besides the processes' own state: `sent` are the requests that went out on a link, `drawn` those a
      reply was sent for. */
  datatype State = State(hub: string, online: map<string, bool>, net: set<Packet>, clock: nat,
                         asked: map<Rid, Request>, callers: map<Rid, Caller>, log: seq<Handling>,
                         sent: set<Rid>, drawn: set<Rid>)

  datatype Step =
    | Connect(node: string, bot: bool)
    | Disconnect(node: string)
    | Ask(rid: Rid, request: Request, wait: bool, answer: string)
    | Tell(origin: string, target: string, body: string, to: set<string>)
    | AtHub(p: Packet, answer: string)
    | AtNode(p: Packet, answer: string)
    | Lose(p: Packet)
    | GiveUp(rid: Rid)
    | Abort(rid: Rid)

  function Init(hub: string): State {
    State(hub, map[], {}, 0, map[], map[], [], {}, {})
  }

  // ------------------------------------------------------------------- small steps

  function Send(s: State, hop: Hop, frame: Frame): State {
    s.(net := s.net + {Packet(s.clock, hop, frame)}, clock := s.clock + 1,
       drawn := if frame.Reply? then s.drawn + {frame.rid} else s.drawn)
  }

  function FanOut(s: State, to: set<string>, frame: Frame): State {
    s.(net := s.net + set node | node in to :: Packet(s.clock, Down(node), frame), clock := s.clock + 1)
  }

  function SendsOut(s: State, rid: Rid): State {
    s.(sent := s.sent + {rid})
  }

  function Take(s: State, p: Packet): State {
    s.(net := s.net - {p})
  }

  /** A reply reaches a process; it matters only if that process lists the call. */
  function Resolve(s: State, at: string, rid: Rid, payload: Payload): State {
    if rid in s.callers && s.callers[rid].origin == at && s.callers[rid].listed
    then s.(callers := s.callers[rid := s.callers[rid].(box := Some(payload))])
    else s
  }

  function Handle(s: State, who: string, m: Frame, answer: string): State
    requires m.Message?
  {
    s.(log := s.log + [Handling(who, m.rid, m.body, answer)])
  }

  /** What comes back for a message, over the link it came in on. */
  function AnswerDown(s: State, sender: string, m: Frame, payload: Payload): State
    requires m.Message?
  {
    Send(s, Down(sender), Reply(m.rid, s.hub, sender, payload))
  }

  predicate ForHub(s: State, target: string) {
    target == "" || target == s.hub
  }

  // ------------------------------------------------------------------ the hub's half

  /** A frame of a registered node; its source is what the hub knows it to be. */
  function HubReceives(s: State, sender: string, f: Frame, answer: string): State {
    match f
    case Reply(rid, _, target, payload) =>
      if ForHub(s, target) then Resolve(s, s.hub, rid, payload)
      else if target in s.online then Send(s, Down(target), Reply(rid, sender, target, payload))
      else s
    case Message(rid, _, target, ping, body) => HubRoutes(s, sender, Message(rid, sender, target, ping, body), answer)
    case Event(_, target, body) =>
      if sender in s.online && s.online[sender] then s
      else if target == "*" || target == "" then FanOut(s, s.online.Keys - {sender}, Event(sender, target, body))
      else if target in s.online then Send(s, Down(target), Event(sender, target, body))
      else s
  }

  function HubRoutes(s: State, sender: string, m: Frame, answer: string): State
    requires m.Message?
  {
    if m.ping then AnswerDown(s, sender, m, Pong)
    else if sender in s.online && s.online[sender] then AnswerDown(s, sender, m, Refused)
    else if ForHub(s, m.target) then AnswerDown(Handle(s, s.hub, m, answer), sender, m, Handled(s.hub, answer))
    else if m.target == "*" then AnswerDown(FanOut(s, s.online.Keys - {sender}, m), sender, m, Broadcast)
    else if m.target in s.online then Send(s, Down(m.target), m)
    else AnswerDown(s, sender, m, Unknown)
  }

  /** The hub's own calls: to itself without the network, to anybody else only if that one is online. */
  function HubAsks(s: State, rid: Rid, m: Frame, wait: bool, answer: string): State
    requires m.Message?
  {
    if ForHub(s, m.target) then
      var t := Handle(s, s.hub, m, answer);
      if wait then t.(callers := t.callers[rid := Caller(s.hub, false, Some(Handled(s.hub, answer)))]) else t
    else if m.target !in s.online then s
    else Send(SendsOut(Listed(s, rid, s.hub, wait), rid), Down(m.target), m)
  }

  // ----------------------------------------------------------------- a node's half

  function NodeReceives(s: State, node: string, f: Frame, answer: string): State {
    match f
    case Reply(rid, _, _, payload) => Resolve(s, node, rid, payload)
    case Event(_, _, _) => s
    case Message(rid, source, _, ping, _) =>
      if ping then Send(s, Up(node), Reply(rid, node, source, Pong))
      else Send(Handle(s, node, f, answer), Up(node), Reply(rid, node, source, Handled(node, answer)))
  }

  function Listed(s: State, rid: Rid, origin: string, wait: bool): State {
    if wait then s.(callers := s.callers[rid := Caller(origin, true, None)]) else s
  }

  // ------------------------------------------------------------------------- a run

  predicate Enabled(s: State, e: Step) {
    match e
    case Connect(node, _) => node != "" && node != s.hub
    case Disconnect(node) => true
    case Ask(rid, request, _, _) => rid !in s.asked && request.origin != ""
    case Tell(origin, _, _, to) => to <= s.online.Keys
    case AtHub(p, _) => p in s.net && p.hop.Up?
    case AtNode(p, _) => p in s.net && p.hop.Down?
    case Lose(p) => p in s.net
    case GiveUp(rid) => rid in s.callers
    case Abort(rid) => rid in s.callers && s.callers[rid].listed
  }

  function Next(s: State, e: Step): State
    requires Enabled(s, e)
  {
    match e
    case Connect(node, bot) => s.(online := s.online[node := bot])
    case Disconnect(node) => s.(online := s.online - {node})
    case Ask(rid, q, wait, answer) =>
      var m := Message(rid, q.origin, q.target, q.ping, q.body);
      var t := s.(asked := s.asked[rid := q]);
      if q.origin == s.hub then HubAsks(t, rid, m, wait, answer)
      else Send(SendsOut(Listed(t, rid, q.origin, wait), rid), Up(q.origin), m)
    case Tell(origin, target, body, to) =>
      if origin == s.hub then FanOut(s, to, Event(origin, target, body))
      else Send(s, Up(origin), Event(origin, target, body))
    case AtHub(p, answer) => HubReceives(Take(s, p), p.hop.node, p.frame, answer)
    case AtNode(p, answer) => NodeReceives(Take(s, p), p.hop.node, p.frame, answer)
    case Lose(p) => Take(s, p)
    case GiveUp(rid) => s.(callers := s.callers[rid := s.callers[rid].(listed := false)])
    case Abort(rid) => s.(callers := s.callers[rid := s.callers[rid].(listed := false, box := Some(Dropped))])
  }

  // -------------------------------------------------------------------- invariants

  /** Who has to handle a request that is not a broadcast. */
  function Addressee(s: State, target: string): string {
    if ForHub(s, target) then s.hub else target
  }

  ghost predicate Truthful(log: seq<Handling>, rid: Rid, payload: Payload) {
    payload.Handled? ==>
      exists i | 0 <= i < |log| ::
        log[i].rid == rid && log[i].who == payload.who && log[i].answer == payload.answer
  }

  ghost predicate Honest(s: State, p: Packet) {
    match p.frame
    case Event(_, _, _) => true
    case Message(rid, source, target, ping, body) =>
      && rid in s.asked && s.asked[rid] == Request(source, target, ping, body)
      && (if p.hop.Up? then p.hop.node == source else !ForHub(s, target) && (p.hop.node == target || target == "*"))
    case Reply(rid, _, target, payload) =>
      && rid in s.asked && s.asked[rid].origin == target
      && (p.hop.Down? ==> p.hop.node == target)
      && Truthful(s.log, rid, payload)
  }

  ghost predicate HonestNet(s: State) {
    forall p | p in s.net :: p.stamp < s.clock && Honest(s, p)
  }

  ghost predicate HonestLog(s: State) {
    forall i | 0 <= i < |s.log| ::
      && s.log[i].rid in s.asked
      && s.log[i].body == s.asked[s.log[i].rid].body
      && (s.asked[s.log[i].rid].target != "*" ==> s.log[i].who == Addressee(s, s.asked[s.log[i].rid].target))
  }

  ghost predicate HonestCallers(s: State) {
    forall rid | rid in s.callers ::
      && rid in s.asked && s.asked[rid].origin == s.callers[rid].origin
      && (s.callers[rid].box.Some? ==> Truthful(s.log, rid, s.callers[rid].box.value))
  }

  predicate Carries(p: Packet, rid: Rid) {
    p.frame.Message? && p.frame.rid == rid
  }

  predicate Done(log: seq<Handling>, rid: Rid) {
    exists i | 0 <= i < |log| :: log[i].rid == rid
  }

  /** A request to one receiver is in at most one place: on one link, or handled once. */
  ghost predicate OnePlace(s: State, rid: Rid) {
    rid in s.asked && s.asked[rid].target != "*" ==>
      && (forall p, q | p in s.net && q in s.net && Carries(p, rid) && Carries(q, rid) :: p == q)
      && (forall p | p in s.net && Carries(p, rid) :: !Done(s.log, rid))
      && (forall i, j | 0 <= i < |s.log| && 0 <= j < |s.log| && s.log[i].rid == rid && s.log[j].rid == rid :: i == j)
  }

  /** Any request, broadcasts included, is once on its way up or else at most once at each node: on the
      link down to it, or handled by it. */
  ghost predicate Spread(s: State, rid: Rid) {
    && (forall p, q | p in s.net && q in s.net && Carries(p, rid) && Carries(q, rid) && p.hop == q.hop :: p == q)
    && (forall p | p in s.net && Carries(p, rid) && p.hop.Up? ::
          !Done(s.log, rid) && forall q | q in s.net && Carries(q, rid) :: q == p)
    && (forall p | p in s.net && Carries(p, rid) && p.hop.Down? :: !DoneBy(s.log, rid, p.hop.node))
    && (forall i, j | 0 <= i < |s.log| && 0 <= j < |s.log| && s.log[i].rid == rid && s.log[j].rid == rid
                   && s.log[i].who == s.log[j].who :: i == j)
  }

  predicate DoneBy(log: seq<Handling>, rid: Rid, who: string) {
    exists i | 0 <= i < |log| :: log[i].rid == rid && log[i].who == who
  }

  ghost predicate Placed(s: State, rid: Rid) {
    OnePlace(s, rid) && Spread(s, rid)
  }

  ghost predicate Inv(s: State) {
    && HonestNet(s) && HonestLog(s) && HonestCallers(s)
    && forall rid :: Placed(s, rid)
  }

  /** The request is neither on its way to this process nor handled by it. */
  ghost predicate NotAt(s: State, rid: Rid, who: string) {
    && (forall p | p in s.net && Carries(p, rid) :: p.hop.Down? && p.hop.node != who)
    && !DoneBy(s.log, rid, who)
  }

  /** Nothing carries the request and nobody handled it. */
  ghost predicate Nowhere(s: State, rid: Rid) {
    && (forall p | p in s.net :: !Carries(p, rid))
    && !Done(s.log, rid)
  }

  lemma SendReplyKeeps(s: State, hop: Hop, rid: Rid, source: string, target: string, payload: Payload)
    requires Inv(s)
    requires Honest(s, Packet(s.clock, hop, Reply(rid, source, target, payload)))
    ensures Inv(Send(s, hop, Reply(rid, source, target, payload)))
  {
    var t := Send(s, hop, Reply(rid, source, target, payload));
    forall r ensures Placed(t, r) { assert Placed(s, r); }
  }

  lemma SendEventKeeps(s: State, hop: Hop, f: Frame)
    requires Inv(s) && f.Event?
    ensures Inv(Send(s, hop, f))
  {
    forall r ensures Placed(Send(s, hop, f), r) { assert Placed(s, r); }
  }

  lemma FanOutEventKeeps(s: State, to: set<string>, f: Frame)
    requires Inv(s) && f.Event?
    ensures Inv(FanOut(s, to, f))
  {
    forall r ensures Placed(FanOut(s, to, f), r) { assert Placed(s, r); }
  }

  lemma FanOutMessageKeeps(s: State, to: set<string>, m: Frame)
    requires Inv(s) && m.Message? && m.target == "*" && !ForHub(s, "*") && Nowhere(s, m.rid)
    requires m.rid in s.asked && s.asked[m.rid] == Request(m.source, m.target, m.ping, m.body)
    ensures Inv(FanOut(s, to, m))
  {
    forall r ensures Placed(FanOut(s, to, m), r) { assert Placed(s, r); }
  }

  lemma SendMessageKeeps(s: State, hop: Hop, m: Frame)
    requires Inv(s) && m.Message? && Nowhere(s, m.rid)
    requires Honest(s, Packet(s.clock, hop, m))
    ensures Inv(Send(s, hop, m))
  {
    forall r ensures Placed(Send(s, hop, m), r) { assert Placed(s, r); }
  }

  lemma TakeKeeps(s: State, p: Packet)
    requires Inv(s) && p in s.net
    ensures Inv(Take(s, p))
    ensures p.frame.Message? && (p.frame.target != "*" || p.hop.Up?) ==> Nowhere(Take(s, p), p.frame.rid)
    ensures p.frame.Message? && p.hop.Down? ==> NotAt(Take(s, p), p.frame.rid, p.hop.node)
  {
    forall r ensures Placed(Take(s, p), r) { assert Placed(s, r); }
    if p.frame.Message? {
      assert Honest(s, p) && Placed(s, p.frame.rid);
    }
  }

  lemma HandleKeeps(s: State, who: string, m: Frame, answer: string)
    requires Inv(s) && m.Message? && m.rid in s.asked
    requires m.target == s.asked[m.rid].target && m.body == s.asked[m.rid].body
    requires NotAt(s, m.rid, who) && (m.target != "*" ==> Nowhere(s, m.rid) && who == Addressee(s, m.target))
    ensures Inv(Handle(s, who, m, answer))
    ensures Truthful(Handle(s, who, m, answer).log, m.rid, Handled(who, answer))
  {
    var t := Handle(s, who, m, answer);
    assert t.log[|s.log|] == Handling(who, m.rid, m.body, answer);
    TruthGrows(s.log, t.log[|s.log|]);
    forall r ensures Placed(t, r) {
      assert Placed(s, r);
      assert r != m.rid && !Done(s.log, r) ==> !Done(t.log, r);
      assert forall node | !(r == m.rid && node == who) && !DoneBy(s.log, r, node) :: !DoneBy(t.log, r, node);
    }
    forall p | p in t.net ensures Honest(t, p) { assert Honest(s, p); }
  }

  lemma TruthGrows(log: seq<Handling>, h: Handling)
    ensures forall rid, payload | Truthful(log, rid, payload) :: Truthful(log + [h], rid, payload)
  {
    forall rid, payload | Truthful(log, rid, payload)
      ensures Truthful(log + [h], rid, payload)
    {
      if payload.Handled? {
        var i :| 0 <= i < |log| && log[i].rid == rid && log[i].who == payload.who && log[i].answer == payload.answer;
        assert (log + [h])[i] == log[i];
      }
    }
  }

  lemma ResolveKeeps(s: State, at: string, rid: Rid, payload: Payload)
    requires Inv(s) && Truthful(s.log, rid, payload)
    ensures Inv(Resolve(s, at, rid, payload))
  {
    var t := Resolve(s, at, rid, payload);
    forall r ensures Placed(t, r) { assert Placed(s, r); }
  }

  // ------------------------------------------------------------------ whole steps

  /** What a message owes to the request it carries, once it is off the net. */
  ghost predicate InHand(s: State, m: Frame) {
    && m.Message? && m.rid in s.asked && s.asked[m.rid] == Request(m.source, m.target, m.ping, m.body)
    && Nowhere(s, m.rid)
  }

  lemma AnswerKeeps(s: State, m: Frame, payload: Payload)
    requires Inv(s) && m.Message? && m.rid in s.asked && s.asked[m.rid].origin == m.source
    requires Truthful(s.log, m.rid, payload)
    ensures Inv(AnswerDown(s, m.source, m, payload))
  {
    SendReplyKeeps(s, Down(m.source), m.rid, s.hub, m.source, payload);
  }

  lemma HubRoutesKeeps(s: State, m: Frame, answer: string)
    requires Inv(s) && InHand(s, m)
    ensures Inv(HubRoutes(s, m.source, m, answer))
  {
    if m.ping {
      AnswerKeeps(s, m, Pong);
    } else if m.source in s.online && s.online[m.source] {
      AnswerKeeps(s, m, Refused);
    } else if ForHub(s, m.target) {
      HandleKeeps(s, s.hub, m, answer);
      AnswerKeeps(Handle(s, s.hub, m, answer), m, Handled(s.hub, answer));
    } else if m.target == "*" {
      var to := s.online.Keys - {m.source};
      FanOutMessageKeeps(s, to, m);
      AnswerKeeps(FanOut(s, to, m), m, Broadcast);
    } else if m.target in s.online {
      SendMessageKeeps(s, Down(m.target), m);
    } else {
      AnswerKeeps(s, m, Unknown);
    }
  }

  lemma AtHubKeeps(s: State, p: Packet, answer: string)
    requires Inv(s) && p in s.net && p.hop.Up?
    ensures Inv(HubReceives(Take(s, p), p.hop.node, p.frame, answer))
  {
    TakeKeeps(s, p);
    var t := Take(s, p);
    assert Honest(s, p);
    match p.frame
    case Message(rid, source, target, ping, body) => HubRoutesKeeps(t, p.frame, answer);
    case Event(_, target, body) =>
      FanOutEventKeeps(t, t.online.Keys - {p.hop.node}, Event(p.hop.node, target, body));
      SendEventKeeps(t, Down(target), Event(p.hop.node, target, body));
    case Reply(rid, source, target, payload) =>
      ResolveKeeps(t, t.hub, rid, payload);
      SendReplyKeeps(t, Down(target), rid, p.hop.node, target, payload);
  }

  lemma AtNodeKeeps(s: State, p: Packet, answer: string)
    requires Inv(s) && p in s.net && p.hop.Down?
    ensures Inv(NodeReceives(Take(s, p), p.hop.node, p.frame, answer))
  {
    TakeKeeps(s, p);
    var t := Take(s, p);
    assert Honest(s, p);
    match p.frame
    case Message(rid, source, target, ping, body) =>
      SendReplyKeeps(t, Up(p.hop.node), rid, p.hop.node, source, Pong);
      HandleKeeps(t, p.hop.node, p.frame, answer);
      SendReplyKeeps(Handle(t, p.hop.node, p.frame, answer), Up(p.hop.node), rid, p.hop.node, source,
                     Handled(p.hop.node, answer));
    case Event(_, _, _) =>
    case Reply(rid, source, target, payload) => ResolveKeeps(t, p.hop.node, rid, payload);
  }

  /** A request id is new, so nothing carries it yet. */
  lemma NewRequest(s: State, rid: Rid, q: Request)
    requires Inv(s) && rid !in s.asked
    ensures var t := s.(asked := s.asked[rid := q]);
            Inv(t) && Nowhere(t, rid)
  {
    var t := s.(asked := s.asked[rid := q]);
    assert forall p | p in s.net :: Honest(s, p);
    assert Nowhere(t, rid);
    forall r ensures Placed(t, r) { assert Placed(s, r); }
  }

  lemma ListedKeeps(s: State, rid: Rid, origin: string, wait: bool)
    requires Inv(s) && rid in s.asked && s.asked[rid].origin == origin
    ensures Inv(Listed(s, rid, origin, wait))
  {
    forall r ensures Placed(Listed(s, rid, origin, wait), r) { assert Placed(s, r); }
  }

  /** A request goes out on a link, with or without somebody waiting for it. */
  lemma AskSends(t: State, rid: Rid, origin: string, wait: bool, hop: Hop, m: Frame)
    requires Inv(t) && Nowhere(t, rid) && rid in t.asked && t.asked[rid].origin == origin
    requires m.Message? && m.rid == rid && Honest(t, Packet(t.clock, hop, m))
    ensures Inv(Send(SendsOut(Listed(t, rid, origin, wait), rid), hop, m))
  {
    ListedKeeps(t, rid, origin, wait);
    var u := Listed(t, rid, origin, wait);
    SameNetKeeps(u, SendsOut(u, rid));
    assert Nowhere(SendsOut(u, rid), rid);
    SendMessageKeeps(SendsOut(u, rid), hop, m);
  }

  /** The hub asks itself: handled on the spot. */
  lemma AskSelf(t: State, rid: Rid, m: Frame, wait: bool, answer: string)
    requires Inv(t) && Nowhere(t, rid) && m.Message? && m.rid == rid && m.source == t.hub && ForHub(t, m.target)
    requires rid in t.asked && t.asked[rid] == Request(m.source, m.target, m.ping, m.body)
    ensures Inv(HubAsks(t, rid, m, wait, answer))
  {
    HandleKeeps(t, t.hub, m, answer);
    var h := Handle(t, t.hub, m, answer);
    if wait {
      SameNetKeeps(h, h.(callers := h.callers[rid := Caller(t.hub, false, Some(Handled(t.hub, answer)))]));
    }
  }

  lemma AskKeeps(s: State, rid: Rid, q: Request, wait: bool, answer: string)
    requires Inv(s) && Enabled(s, Ask(rid, q, wait, answer))
    ensures Inv(Next(s, Ask(rid, q, wait, answer)))
  {
    var m := Message(rid, q.origin, q.target, q.ping, q.body);
    var t := s.(asked := s.asked[rid := q]);
    NewRequest(s, rid, q);
    if q.origin != s.hub {
      AskSends(t, rid, q.origin, wait, Up(q.origin), m);
    } else if ForHub(s, q.target) {
      AskSelf(t, rid, m, wait, answer);
    } else if q.target in s.online {
      AskSends(t, rid, q.origin, wait, Down(q.target), m);
    }
  }

  lemma NextKeeps(s: State, e: Step)
    requires Inv(s) && Enabled(s, e)
    ensures Inv(Next(s, e))
  {
    match e
    case Ask(rid, q, wait, answer) => AskKeeps(s, rid, q, wait, answer);
    case AtHub(p, answer) => AtHubKeeps(s, p, answer);
    case AtNode(p, answer) => AtNodeKeeps(s, p, answer);
    case Lose(p) => TakeKeeps(s, p);
    case Tell(origin, target, body, to) =>
      FanOutEventKeeps(s, to, Event(origin, target, body));
      SendEventKeeps(s, Up(origin), Event(origin, target, body));
    case Connect(_, _) => SameNetKeeps(s, Next(s, e));
    case Disconnect(_) => SameNetKeeps(s, Next(s, e));
    case GiveUp(_) => SameNetKeeps(s, Next(s, e));
    case Abort(_) => SameNetKeeps(s, Next(s, e));
  }

  lemma SameNetKeeps(s: State, t: State)
    requires Inv(s)
    requires t.net == s.net && t.log == s.log && t.asked == s.asked && t.hub == s.hub && t.clock == s.clock
    requires HonestCallers(t)
    ensures Inv(t)
  {
    forall p | p in t.net ensures p.stamp < t.clock && Honest(t, p) { assert Honest(s, p); }
    forall r ensures Placed(t, r) { assert Placed(s, r); }
  }

  // --------------------------------------------------------------- over whole runs

  ghost predicate Legal(s: State, steps: seq<Step>)
    decreases |steps|
  {
    steps == [] || (Enabled(s, steps[0]) && Legal(Next(s, steps[0]), steps[1..]))
  }

  ghost function Run(s: State, steps: seq<Step>): State
    requires Legal(s, steps)
    decreases |steps|
  {
    if steps == [] then s else Run(Next(s, steps[0]), steps[1..])
  }

  lemma {:induction false} RunKeeps(s: State, steps: seq<Step>)
    requires Inv(s) && Legal(s, steps)
    ensures Inv(Run(s, steps)) && Run(s, steps).hub == s.hub
    decreases |steps|
  {
    if steps != [] {
      NextKeeps(s, steps[0]);
      HubStays(s, steps[0]);
      RunKeeps(Next(s, steps[0]), steps[1..]);
    }
  }

  lemma HubStays(s: State, e: Step)
    requires Enabled(s, e)
    ensures Next(s, e).hub == s.hub
  {
  }

  lemma Prepend(s: State, e: Step, rest: seq<Step>)
    requires Enabled(s, e) && Legal(Next(s, e), rest)
    ensures Legal(s, [e] + rest) && Run(s, [e] + rest) == Run(Next(s, e), rest)
  {
    assert ([e] + rest)[1..] == rest;
  }
}
