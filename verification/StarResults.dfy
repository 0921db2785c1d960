/** What the star promises: one handling at most, every caller its own answer, no request swallowed. */
module StarResults {
  import opened Star

  /** How often a request was handled. */
  function Times(log: seq<Handling>, n: nat, rid: Rid): nat
    requires n <= |log|
  {
    if n == 0 then 0 else Times(log, n - 1, rid) + if log[n - 1].rid == rid then 1 else 0
  }

  lemma {:induction false} TimesAtMostOne(log: seq<Handling>, n: nat, rid: Rid)
    requires n <= |log|
    requires forall i, j | 0 <= i < n && 0 <= j < n && log[i].rid == rid && log[j].rid == rid :: i == j
    ensures Times(log, n, rid) <= 1
    ensures Times(log, n, rid) == 1 <==> exists i | 0 <= i < n :: log[i].rid == rid
  {
    if n > 0 {
      TimesAtMostOne(log, n - 1, rid);
    }
  }

  /** Whatever is lost, reordered or delivered late, and whoever comes and goes: a request that is
      not a broadcast is handled at most once, only by the one it names, and as it was asked. */
  lemma HandledAtMostOnce(hub: string, steps: seq<Step>, rid: Rid)
    requires Legal(Init(hub), steps)
    requires var s := Run(Init(hub), steps);
             rid in s.asked && s.asked[rid].target != "*"
    ensures var s := Run(Init(hub), steps);
            && Times(s.log, |s.log|, rid) <= 1
            && forall i | 0 <= i < |s.log| && s.log[i].rid == rid ::
                 s.log[i].who == Addressee(s, s.asked[rid].target) && s.log[i].body == s.asked[rid].body
  {
    RunKeeps(Init(hub), steps);
    var s := Run(Init(hub), steps);
    assert Placed(s, rid);
    TimesAtMostOne(s.log, |s.log|, rid);
  }

  /** The handler's answer a waiting caller gets is the one its own request drew. */
  lemma CallerGetsItsOwnAnswer(hub: string, steps: seq<Step>, rid: Rid)
    requires Legal(Init(hub), steps)
    requires var s := Run(Init(hub), steps);
             rid in s.callers && s.callers[rid].box.Some? && s.callers[rid].box.value.Handled?
    ensures var s := Run(Init(hub), steps);
            var payload := s.callers[rid].box.value;
            && rid in s.asked && s.asked[rid].origin == s.callers[rid].origin
            && (exists i | 0 <= i < |s.log| ::
                  s.log[i].rid == rid && s.log[i].who == payload.who && s.log[i].answer == payload.answer)
            && (s.asked[rid].target != "*" ==> payload.who == Addressee(s, s.asked[rid].target))
            && (s.asked[rid].target != "*" ==>
                  forall i | 0 <= i < |s.log| && s.log[i].rid == rid :: s.log[i].answer == payload.answer)
  {
    RunKeeps(Init(hub), steps);
    var s := Run(Init(hub), steps);
    assert Truthful(s.log, rid, s.callers[rid].box.value);
    assert Placed(s, rid);
  }

  function BroadcastRelayed(a: string, b: string, c: string, body: string): seq<Step> {
    var m := Message(0, a, "*", false, body);
    [AtHub(Packet(0, Up(a), m), "")]
    + ([AtNode(Packet(1, Down(b), m), "")] + ([AtNode(Packet(1, Down(c), m), "")] + []))
  }

  lemma RelayedToTwo(s: State, a: string, b: string, c: string, body: string)
    requires s.net == {Packet(0, Up(a), Message(0, a, "*", false, body))} && s.clock == 1 && s.log == []
    requires {b, c} <= s.online.Keys && a !in {b, c} && b != c && s.hub != "*" && !(a in s.online && s.online[a])
    ensures Legal(s, BroadcastRelayed(a, b, c, body))
    ensures Run(s, BroadcastRelayed(a, b, c, body)).log == [Handling(b, 0, body, ""), Handling(c, 0, body, "")]
  {
    var m := Message(0, a, "*", false, body);
    var s1 := Next(s, AtHub(Packet(0, Up(a), m), ""));
    assert Packet(1, Down(b), m) in s1.net && Packet(1, Down(c), m) in s1.net && s1.log == [];
    var s2 := Next(s1, AtNode(Packet(1, Down(b), m), ""));
    assert Packet(1, Down(c), m) in s2.net;
    Prepend(s2, AtNode(Packet(1, Down(c), m), ""), []);
    Prepend(s1, AtNode(Packet(1, Down(b), m), ""), [AtNode(Packet(1, Down(c), m), "")] + []);
    Prepend(s, AtHub(Packet(0, Up(a), m), ""),
            [AtNode(Packet(1, Down(b), m), "")] + ([AtNode(Packet(1, Down(c), m), "")] + []));
  }

  /** A broadcast is different: every other node may handle it. */
  lemma BroadcastHandledTwice(hub: string, a: string, b: string, c: string, body: string)
    requires a != b && b != c && a != c && hub !in {"", "*", a, b, c} && "" !in {a, b, c}
    ensures exists steps :: Legal(Init(hub), steps) &&
                            Run(Init(hub), steps).log == [Handling(b, 0, body, ""), Handling(c, 0, body, "")]
  {
    var ask := Ask(0, Request(a, "*", false, body), false, "");
    var s1 := Next(Init(hub), Connect(b, false));
    var s2 := Next(s1, Connect(c, false));
    var s3 := Next(s2, ask);
    assert s3.net == {Packet(0, Up(a), Message(0, a, "*", false, body))};
    RelayedToTwo(s3, a, b, c, body);
    var rest := BroadcastRelayed(a, b, c, body);
    Prepend(s2, ask, rest);
    Prepend(s1, Connect(c, false), [ask] + rest);
    Prepend(Init(hub), Connect(b, false), [Connect(c, false)] + ([ask] + rest));
  }

  // ------------------------------------------------------------- once per node

  /** How often this process handled this request. */
  function TimesBy(log: seq<Handling>, n: nat, rid: Rid, who: string): nat
    requires n <= |log|
  {
    if n == 0 then 0
    else TimesBy(log, n - 1, rid, who) + if log[n - 1].rid == rid && log[n - 1].who == who then 1 else 0
  }

  lemma {:induction false} TimesByAtMostOne(log: seq<Handling>, n: nat, rid: Rid, who: string)
    requires n <= |log|
    requires forall i, j | 0 <= i < n && 0 <= j < n && log[i].rid == rid && log[j].rid == rid
                        && log[i].who == log[j].who :: i == j
    ensures TimesBy(log, n, rid, who) <= 1
    ensures TimesBy(log, n, rid, who) == 1 <==> exists i | 0 <= i < n :: log[i].rid == rid && log[i].who == who
  {
    if n > 0 {
      TimesByAtMostOne(log, n - 1, rid, who);
    }
  }

  /** Every request, broadcasts included: nobody handles it twice, or otherwise than it was asked. */
  lemma HandledOncePerNode(hub: string, steps: seq<Step>, rid: Rid, who: string)
    requires Legal(Init(hub), steps)
    ensures var s := Run(Init(hub), steps);
            && TimesBy(s.log, |s.log|, rid, who) <= 1
            && forall i | 0 <= i < |s.log| && s.log[i].rid == rid ::
                 rid in s.asked && s.log[i].body == s.asked[rid].body
  {
    RunKeeps(Init(hub), steps);
    var s := Run(Init(hub), steps);
    assert Placed(s, rid);
    TimesByAtMostOne(s.log, |s.log|, rid, who);
  }

  // ------------------------------------------------------------- nothing is swallowed

  /** A request that went out is still on its way, or a reply to it was sent. */
  ghost predicate Accounted(s: State, rid: Rid) {
    rid in s.sent ==> rid in s.asked && ((exists p | p in s.net :: Carries(p, rid)) || rid in s.drawn)
  }

  predicate LosesIt(e: Step, rid: Rid) {
    e.Lose? && Carries(e.p, rid)
  }

  lemma StaysAccounted(s: State, t: State, rid: Rid)
    requires Accounted(s, rid) && t.sent == s.sent && s.asked.Keys <= t.asked.Keys && s.drawn <= t.drawn
    requires forall p | p in s.net && Carries(p, rid) :: p in t.net
    ensures Accounted(t, rid)
  {
  }

  lemma MessageMovesOn(s: State, p: Packet, answer: string, rid: Rid)
    requires p in s.net && Carries(p, rid) && rid in s.asked
    ensures Accounted(if p.hop.Up? then HubReceives(Take(s, p), p.hop.node, p.frame, answer)
                      else NodeReceives(Take(s, p), p.hop.node, p.frame, answer), rid)
  {
    var u := Take(s, p);
    var t := HubReceives(u, p.hop.node, p.frame, answer);
    if p.hop.Up? && rid !in t.drawn {
      var m := Message(rid, p.hop.node, p.frame.target, p.frame.ping, p.frame.body);
      var relayed := Packet(u.clock, Down(m.target), m);
      assert relayed in t.net && Carries(relayed, rid);
    }
  }

  lemma OthersStayAtHub(s: State, p: Packet, answer: string, rid: Rid)
    requires p in s.net && !Carries(p, rid) && Accounted(s, rid)
    ensures Accounted(HubReceives(Take(s, p), p.hop.node, p.frame, answer), rid)
  {
    StaysAccounted(s, HubReceives(Take(s, p), p.hop.node, p.frame, answer), rid);
  }

  lemma OthersStayAtNode(s: State, p: Packet, answer: string, rid: Rid)
    requires p in s.net && !Carries(p, rid) && Accounted(s, rid)
    ensures Accounted(NodeReceives(Take(s, p), p.hop.node, p.frame, answer), rid)
  {
    StaysAccounted(s, NodeReceives(Take(s, p), p.hop.node, p.frame, answer), rid);
  }

  lemma AskAccounts(s: State, e: Step, rid: Rid)
    requires e.Ask? && Enabled(s, e) && Accounted(s, rid)
    ensures Accounted(Next(s, e), rid)
  {
    var t := Next(s, e);
    var q := e.request;
    if rid != e.rid {
      assert rid in t.sent <==> rid in s.sent;
    } else if rid in t.sent {
      var m := Message(e.rid, q.origin, q.target, q.ping, q.body);
      var p := Packet(s.clock, if q.origin == s.hub then Down(q.target) else Up(q.origin), m);
      assert p in t.net && Carries(p, rid);
    }
  }

  lemma NextAccounts(s: State, e: Step, rid: Rid)
    requires Accounted(s, rid) && Enabled(s, e) && !LosesIt(e, rid) && (rid in s.sent ==> rid in s.asked)
    requires forall p | p in s.net && Carries(p, rid) :: rid in s.asked
    ensures Accounted(Next(s, e), rid)
  {
    if e.Ask? {
      AskAccounts(s, e, rid);
    } else if e.AtHub? || e.AtNode? {
      if Carries(e.p, rid) {
        MessageMovesOn(s, e.p, e.answer, rid);
      } else if e.AtHub? {
        OthersStayAtHub(s, e.p, e.answer, rid);
      } else {
        OthersStayAtNode(s, e.p, e.answer, rid);
      }
    } else {
      StaysAccounted(s, Next(s, e), rid);
    }
  }

  lemma {:induction false} RunAccounts(s: State, steps: seq<Step>, rid: Rid)
    requires Inv(s) && Accounted(s, rid) && Legal(s, steps) && forall e | e in steps :: !LosesIt(e, rid)
    ensures Accounted(Run(s, steps), rid)
    decreases |steps|
  {
    if steps != [] {
      assert steps[0] in steps;
      assert forall p | p in s.net && Carries(p, rid) :: Honest(s, p);
      NextAccounts(s, steps[0], rid);
      NextKeeps(s, steps[0]);
      RunAccounts(Next(s, steps[0]), steps[1..], rid);
    }
  }

  /** No process swallows a request: over every run in which no link loses it, a request of a node, or
      one of the hub to somebody who was online, is still on a link, or somebody sent a reply that names
      it; and every reply to it on the links goes to the one who asked. */
  lemma NoRequestIsSwallowed(hub: string, steps: seq<Step>, rid: Rid)
    requires Legal(Init(hub), steps) && rid in Run(Init(hub), steps).asked
    requires forall e | e in steps :: !LosesIt(e, rid)
    ensures var s := Run(Init(hub), steps);
            && (s.asked[rid].origin != hub ==> rid in s.sent)
            && (rid in s.sent ==> (exists p | p in s.net :: Carries(p, rid)) || rid in s.drawn)
            && forall p | p in s.net && p.frame.Reply? && p.frame.rid == rid ::
                 p.frame.target == s.asked[rid].origin
  {
    NodesSend(Init(hub), steps, rid);
    RunAccounts(Init(hub), steps, rid);
    RunKeeps(Init(hub), steps);
    var s := Run(Init(hub), steps);
    assert forall p | p in s.net :: Honest(s, p);
  }

  /** Whoever is not the hub has what it asks sent. */
  ghost predicate AskedIsSent(s: State, rid: Rid) {
    rid in s.asked && s.asked[rid].origin != s.hub ==> rid in s.sent
  }

  lemma StepSends(s: State, e: Step, rid: Rid)
    requires Enabled(s, e) && AskedIsSent(s, rid)
    ensures AskedIsSent(Next(s, e), rid)
  {
    if !e.Ask? {
      OnlyAsksAsk(s, e);
    }
  }

  predicate SameRequests(s: State, t: State) {
    t.asked == s.asked && t.sent == s.sent && t.hub == s.hub
  }

  lemma HubAsksNothing(s: State, p: Packet, answer: string)
    ensures SameRequests(s, HubReceives(Take(s, p), p.hop.node, p.frame, answer))
  {
  }

  lemma NodeAsksNothing(s: State, p: Packet, answer: string)
    ensures SameRequests(s, NodeReceives(Take(s, p), p.hop.node, p.frame, answer))
  {
  }

  lemma OnlyAsksAsk(s: State, e: Step)
    requires Enabled(s, e) && !e.Ask?
    ensures SameRequests(s, Next(s, e))
  {
    if e.AtHub? {
      HubAsksNothing(s, e.p, e.answer);
    } else if e.AtNode? {
      NodeAsksNothing(s, e.p, e.answer);
    }
  }

  /** Every request of a node goes out. */
  lemma {:induction false} NodesSend(s: State, steps: seq<Step>, rid: Rid)
    requires Legal(s, steps) && AskedIsSent(s, rid)
    ensures AskedIsSent(Run(s, steps), rid)
    decreases |steps|
  {
    if steps != [] {
      StepSends(s, steps[0], rid);
      NodesSend(Next(s, steps[0]), steps[1..], rid);
    }
  }

  // ------------------------------------------------------------- what a bot asks

  /** The hub takes this request off its link while the sender's name is not registered as a bot. */
  predicate TakenAsNode(s: State, e: Step, rid: Rid) {
    e.AtHub? && Carries(e.p, rid) && !(e.p.hop.node in s.online && s.online[e.p.hop.node])
  }

  ghost predicate SlipsThrough(s: State, steps: seq<Step>, rid: Rid)
    requires Legal(s, steps)
    decreases |steps|
  {
    steps != [] && (TakenAsNode(s, steps[0], rid) || SlipsThrough(Next(s, steps[0]), steps[1..], rid))
  }

  /** Nobody handled the request, and it is not on its way to a node. */
  ghost predicate Untouched(s: State, rid: Rid) {
    !Done(s.log, rid) && forall p | p in s.net && Carries(p, rid) :: p.hop.Up?
  }

  /** A request of a node that is more than a ping, once it is asked. */
  predicate Serious(s: State, rid: Rid) {
    rid in s.asked ==> s.asked[rid].origin != s.hub && !s.asked[rid].ping
  }

  lemma {:induction false} AskedStays(s: State, steps: seq<Step>, rid: Rid)
    requires Legal(s, steps)
    ensures rid in s.asked ==> rid in Run(s, steps).asked && Run(s, steps).asked[rid] == s.asked[rid]
    ensures Run(s, steps).hub == s.hub
    decreases |steps|
  {
    if steps != [] {
      AskedStep(s, steps[0], rid);
      AskedStays(Next(s, steps[0]), steps[1..], rid);
    }
  }

  lemma AskedStep(s: State, e: Step, rid: Rid)
    requires Enabled(s, e)
    ensures rid in s.asked ==> rid in Next(s, e).asked && Next(s, e).asked[rid] == s.asked[rid]
    ensures Next(s, e).hub == s.hub
  {
    if !e.Ask? {
      OnlyAsksAsk(s, e);
    }
  }

  lemma RefusedAtHub(s: State, p: Packet, answer: string, rid: Rid)
    requires Inv(s) && Untouched(s, rid) && Serious(s, rid) && p in s.net && p.hop.Up?
    requires Carries(p, rid) ==> p.hop.node in s.online && s.online[p.hop.node]
    ensures Untouched(HubReceives(Take(s, p), p.hop.node, p.frame, answer), rid)
  {
    assert Honest(s, p);
  }

  lemma NothingToHandle(s: State, p: Packet, answer: string, rid: Rid)
    requires Untouched(s, rid) && p in s.net && p.hop.Down?
    ensures Untouched(NodeReceives(Take(s, p), p.hop.node, p.frame, answer), rid)
  {
    assert !Carries(p, rid);
  }

  lemma AskUntouched(s: State, e: Step, rid: Rid)
    requires Inv(s) && Enabled(s, e) && e.Ask? && Untouched(s, rid) && Serious(Next(s, e), rid)
    ensures Untouched(Next(s, e), rid)
  {
  }

  lemma StepLeavesUntouched(s: State, e: Step, rid: Rid)
    requires Inv(s) && Enabled(s, e) && Untouched(s, rid) && Serious(s, rid) && Serious(Next(s, e), rid)
    requires !TakenAsNode(s, e, rid)
    ensures Untouched(Next(s, e), rid)
  {
    if e.Ask? {
      AskUntouched(s, e, rid);
    } else if e.AtHub? {
      RefusedAtHub(s, e.p, e.answer, rid);
    } else if e.AtNode? {
      NothingToHandle(s, e.p, e.answer, rid);
    }
  }

  lemma {:induction false} RunLeavesUntouched(s: State, steps: seq<Step>, rid: Rid)
    requires Inv(s) && Legal(s, steps) && Untouched(s, rid) && Serious(Run(s, steps), rid)
    requires !SlipsThrough(s, steps, rid)
    ensures Untouched(Run(s, steps), rid)
    decreases |steps|
  {
    if steps != [] {
      var t := Next(s, steps[0]);
      AskedStays(s, steps, rid);
      AskedStays(t, steps[1..], rid);
      StepLeavesUntouched(s, steps[0], rid);
      NextKeeps(s, steps[0]);
      RunLeavesUntouched(t, steps[1..], rid);
    }
  }

  /** A bot asks in vain: whatever it asks, a ping apart, is handled by nobody and sent on to nobody as
      long as the hub takes it off the link while the name is registered as a bot. */
  lemma BotAsksInVain(hub: string, steps: seq<Step>, rid: Rid)
    requires Legal(Init(hub), steps) && !SlipsThrough(Init(hub), steps, rid)
    requires Serious(Run(Init(hub), steps), rid)
    ensures Untouched(Run(Init(hub), steps), rid)
  {
    RunLeavesUntouched(Init(hub), steps, rid);
  }

  lemma LogGrows(s: State, e: Step, rid: Rid)
    requires Enabled(s, e)
    ensures Done(s.log, rid) ==> Done(Next(s, e).log, rid)
  {
    if Done(s.log, rid) {
      var i :| 0 <= i < |s.log| && s.log[i].rid == rid;
      assert Next(s, e).log[i] == s.log[i];
    }
  }

  /** What the hub takes from a node and is for itself, it handles. */
  lemma HandledWhenTaken(s: State, e: Step, rid: Rid)
    requires Inv(s) && Enabled(s, e) && TakenAsNode(s, e, rid)
    requires rid in s.asked && !s.asked[rid].ping && ForHub(s, s.asked[rid].target)
    ensures Done(Next(s, e).log, rid)
  {
    assert Honest(s, e.p);
    var t := Next(s, e);
    assert t.log[|s.log|].rid == rid;
  }

  lemma {:induction false} SlippedIsHandled(s: State, steps: seq<Step>, rid: Rid)
    requires Inv(s) && Legal(s, steps) && (Done(s.log, rid) || SlipsThrough(s, steps, rid))
    requires var t := Run(s, steps); rid in t.asked && !t.asked[rid].ping && ForHub(t, t.asked[rid].target)
    ensures Done(Run(s, steps).log, rid)
    decreases |steps|
  {
    if steps != [] {
      var t := Next(s, steps[0]);
      AskedStays(s, steps, rid);
      LogGrows(s, steps[0], rid);
      if TakenAsNode(s, steps[0], rid) {
        assert Honest(s, steps[0].p);
        HandledWhenTaken(s, steps[0], rid);
      }
      NextKeeps(s, steps[0]);
      SlippedIsHandled(t, steps[1..], rid);
    }
  }

  /** And a node's request to the hub is handled exactly when the hub took it while the name was not
      registered as a bot. */
  lemma HubHandlesExactly(hub: string, steps: seq<Step>, rid: Rid)
    requires Legal(Init(hub), steps) && Serious(Run(Init(hub), steps), rid)
    requires var s := Run(Init(hub), steps); rid in s.asked && ForHub(s, s.asked[rid].target)
    ensures Done(Run(Init(hub), steps).log, rid) <==> SlipsThrough(Init(hub), steps, rid)
  {
    if SlipsThrough(Init(hub), steps, rid) {
      SlippedIsHandled(Init(hub), steps, rid);
    } else {
      BotAsksInVain(hub, steps, rid);
    }
  }

  /** A name that was only ever a bot's can get a request handled: a frame is still read from an old
      connection when the newer one that took its name over, a bot's as well, has left. */
  lemma BotSlipsThrough(hub: string, bot: string, body: string, answer: string) returns (steps: seq<Step>)
    requires hub !in {"", bot} && bot != ""
    ensures Legal(Init(hub), steps) && forall e | e in steps && e.Connect? :: e.bot
    ensures Run(Init(hub), steps).asked == map[0 := Request(bot, hub, false, body)]
    ensures Run(Init(hub), steps).log == [Handling(hub, 0, body, answer)]
  {
    var ask := Ask(0, Request(bot, hub, false, body), false, "");
    var taken := AtHub(Packet(0, Up(bot), Message(0, bot, hub, false, body)), answer);
    var s1 := Next(Init(hub), Connect(bot, true));
    var s2 := Next(s1, ask);
    var s3 := Next(s2, Disconnect(bot));
    assert taken.p in s3.net;
    Prepend(s3, taken, []);
    Prepend(s2, Disconnect(bot), [taken] + []);
    Prepend(s1, ask, [Disconnect(bot)] + ([taken] + []));
    Prepend(Init(hub), Connect(bot, true), [ask] + ([Disconnect(bot)] + ([taken] + [])));
    steps := [Connect(bot, true)] + ([ask] + ([Disconnect(bot)] + ([taken] + [])));
  }
}
