/** The node table read off the operations: what a run of them leaves of one name. */
module NodeHistory {
  import opened Common
  import opened NodeTable

  // ------------------------------------------------------------------- one name alone

  /** Whether a name waits for a token, what it was granted and still has, and from where and when it was
      last seen under that grant. */
  datatype Node = Node(waits: bool, grant: Option<Grant>, ip: string, seen: Option<int>)

  const STRANGER := Node(false, None, "", None)

  /** What an operation on the name makes of it. */
  function Told(n: Node, e: Event): Node {
    match e
    case Ask(_) => n.(waits := true)
    case Forget(_) => n.(waits := false)
    case Revoke(_) => STRANGER
    case Issue(name, app, ip, token, now, ttl, requirePending, replace) =>
      if name == "" || (requirePending && !n.waits) || (n.grant.Some? && !replace) then n
      else Node(false, Some(Grant(app, token, Truncate(now), ttl)), ip, None)
    case Rotate(_, token, now, ttl) =>
      if n.grant.None? then n
      else Node(false, Some(Grant(n.grant.value.app, token, Truncate(now), ttl)), n.ip, None)
    case Seen(_, ip, now) =>
      if n.grant.None? then n else n.(ip := if ip == "" then n.ip else ip, seen := Some(Truncate(now)))
  }

  /** What the operations on a name have made of it, all others left out. */
  function HistoryOf(events: seq<Event>, name: string): Node {
    if events == [] then STRANGER
    else
      var n, e := HistoryOf(events[..|events| - 1], name), events[|events| - 1];
      if e.name == name then Told(n, e) else n
  }

  /** The table says this of the name. */
  predicate Shows(s: State, name: string, n: Node) {
    && (name in s.waiting <==> n.waits)
    && (name in s.nodes <==> n.grant.Some?)
    && (n.grant.None? || name == "" ==> n == STRANGER.(waits := n.waits))
    && (n.grant.Some? ==>
          var g := n.grant.value;
          s.nodes[name] == Entry(g.app, Sha(g.token), g.issuedAt, g.ttlHours, n.ip, n.seen))
  }

  lemma {:induction false} RunAppend(s: State, events: seq<Event>, e: Event)
    ensures Run(s, events + [e]) == Step(Run(s, events), e)
    decreases |events|
  {
    if events == [] {
      assert [e][1..] == [];
      assert events + [e] == [e];
    } else {
      RunAppend(Step(s, events[0]), events[1..], e);
      assert (events + [e])[1..] == events[1..] + [e];
    }
  }

  lemma StepShows(s: State, e: Event, name: string, n: Node)
    requires Shows(s, name, n)
    ensures Shows(Step(s, e), name, if e.name == name then Told(n, e) else n)
  {
  }

  /** Over every run, what the table holds about a name is what the operations on that name alone come to:
      who waits, whose token it is, under which identity, since when and for how long, and the address and
      time last seen. */
  lemma {:induction false} TableIsHistories(events: seq<Event>, name: string)
    ensures Shows(Run(EMPTY, events), name, HistoryOf(events, name))
    decreases |events|
  {
    if events != [] {
      var before, e := events[..|events| - 1], events[|events| - 1];
      TableIsHistories(before, name);
      RunAppend(EMPTY, before, e);
      assert before + [e] == events;
      StepShows(Run(EMPTY, before), e, name, HistoryOf(before, name));
    }
  }

  /** So over every run the hub's answer follows from the operations on the name. */
  lemma VerdictFollowsHistory(events: seq<Event>, name: string, app: string, token: string, now: real)
    requires name != "" && token != ""
    ensures var grant := HistoryOf(events, name).grant;
            Verify(Run(EMPTY, events).nodes, name, app, token, now) ==
              if grant.None? || grant.value.token != token then Unknown
              else if app != "" && grant.value.app != "" && grant.value.app != app then Unknown
              else if grant.value.ttlHours >= 0
                      && now > (grant.value.issuedAt + grant.value.ttlHours * 3600) as real - 1.0 then Expired
              else Ok
  {
    TableIsHistories(events, name);
    var grant := HistoryOf(events, name).grant;
    if grant.Some? {
      AliveMeans(grant.value.issuedAt, grant.value.ttlHours, now);
    }
  }

  // ----------------------------------------------------------------- who waits for one

  /** The operation takes the name off the waiting list: its request expired, it was revoked, or it was
      given a token. */
  predicate EndsWait(s: State, e: Event, name: string) {
    e.name == name && (e.Forget? || e.Revoke? || ((e.Issue? || e.Rotate?) && Step(s, e).log != s.log))
  }

  /** The i-th operation is a request of the name that nothing after it settled. */
  predicate OpenRequest(events: seq<Event>, name: string, i: nat) {
    && i < |events| && events[i] == Ask(name)
    && forall j | i < j < |events| :: !EndsWait(Run(EMPTY, events[..j]), events[j], name)
  }

  ghost predicate AskedInVain(events: seq<Event>, name: string) {
    exists i :: OpenRequest(events, name, i)
  }

  lemma OpenRequestBefore(before: seq<Event>, e: Event, name: string, i: nat)
    requires i < |before|
    ensures OpenRequest(before + [e], name, i) <==>
            OpenRequest(before, name, i) && !EndsWait(Run(EMPTY, before), e, name)
  {
    var events := before + [e];
    assert events[..|before|] == before;
    assert forall j | i < j < |before| :: events[..j] == before[..j];
    if OpenRequest(before, name, i) && !EndsWait(Run(EMPTY, before), e, name) {
      forall j | i < j < |events| ensures !EndsWait(Run(EMPTY, events[..j]), events[j], name) {
        if j < |before| {
          assert !EndsWait(Run(EMPTY, before[..j]), before[j], name);
        }
      }
    } else if OpenRequest(events, name, i) {
      assert !EndsWait(Run(EMPTY, events[..|before|]), events[|before|], name);
      forall j | i < j < |before| ensures !EndsWait(Run(EMPTY, before[..j]), before[j], name) {
        assert !EndsWait(Run(EMPTY, events[..j]), events[j], name);
      }
    }
  }

  /** Over every run a name waits exactly when its last request was followed by no issue, rotation,
      revocation or expiry. */
  lemma {:induction false} WaitsExactly(events: seq<Event>, name: string)
    ensures name in Run(EMPTY, events).waiting <==> AskedInVain(events, name)
    decreases |events|
  {
    if events != [] {
      var n := |events| - 1;
      var before, e := events[..n], events[n];
      assert before + [e] == events;
      WaitsExactly(before, name);
      RunAppend(EMPTY, before, e);
      if OpenRequest(events, name, n) {
        assert e == Ask(name);
      } else if e == Ask(name) {
        assert OpenRequest(events, name, n);
      } else {
        forall i: nat | i < n
          ensures OpenRequest(events, name, i) <==>
                  OpenRequest(before, name, i) && !EndsWait(Run(EMPTY, before), e, name)
        {
          OpenRequestBefore(before, e, name, i);
        }
      }
    }
  }

  /** Two tables that differ in nothing but this name. */
  ghost predicate SameButFor(s: State, t: State, name: string) {
    forall other | other != name ::
      && (other in s.nodes <==> other in t.nodes) && (other in s.nodes ==> t.nodes[other] == s.nodes[other])
      && (other in s.waiting <==> other in t.waiting)
  }

  /** Over every run an issue is carried out exactly when the name is not empty, it waits if it has to, and
      it has no token that may not be replaced; then the name no longer waits and the new token is its own.
      Otherwise nothing changes. */
  lemma IssuesExactly(events: seq<Event>, e: Event)
    requires e.Issue?
    ensures var s := Run(EMPTY, events);
            var t := Run(EMPTY, events + [e]);
            && (t != s <==> e.name != "" && (e.requirePending ==> AskedInVain(events, e.name))
                            && (HistoryOf(events, e.name).grant.Some? ==> e.replace))
            && (t != s ==> e.name !in t.waiting && HistoryOf(events + [e], e.name).grant.Some?
                           && HistoryOf(events + [e], e.name).grant.value.token == e.token)
            && SameButFor(s, t, e.name)
  {
    RunAppend(EMPTY, events, e);
    WaitsExactly(events, e.name);
    TableIsHistories(events, e.name);
    assert (events + [e])[..|events|] == events;
    var s, t := Run(EMPTY, events), Run(EMPTY, events + [e]);
    if t != s {
      assert e.name in t.nodes;
    } else {
      assert t.log == s.log;
    }
  }

  /** A revocation leaves neither a token nor a request of the name behind. */
  lemma RevokedMeansUnknown(events: seq<Event>, name: string, app: string, token: string, now: real)
    ensures var s := Run(EMPTY, events);
            var t := Run(EMPTY, events + [Revoke(name)]);
            && name !in t.waiting && name !in t.nodes && SameButFor(s, t, name)
            && Verify(t.nodes, name, app, token, now) == Unknown
  {
    RunAppend(EMPTY, events, Revoke(name));
  }

  /** Seconds left, cut towards zero; a negative lifetime never ends. */
  lemma RemainingMeans(issuedAt: int, ttlHours: int, now: real)
    ensures var left := Remaining(issuedAt, ttlHours, now);
            var exact := (issuedAt + 3600 * ttlHours) as real - now;
            && (left.None? <==> ttlHours < 0)
            && (left.Some? ==>
                  && -1.0 < exact - left.value as real < 1.0
                  && (exact >= 0.0 ==> left.value >= 0) && (exact <= 0.0 ==> left.value <= 0))
  {
  }
}
