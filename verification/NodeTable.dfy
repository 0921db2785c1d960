/** The hub's node table: who holds which token, and what the hub answers about it. */
module NodeTable {
  import opened Common

  /** An abstract one-way hash: equal digests mean equal tokens. */
  datatype Digest = Sha(token: string)

  datatype Entry = Entry(app: string, hash: Digest, issuedAt: int, ttlHours: int, lastIp: string, lastSeen: Option<int>)

  datatype Verdict = Ok | Expired | Unknown

  datatype Grant = Grant(app: string, token: string, issuedAt: int, ttlHours: int)

  /** What an operator was shown: a token once, or that a node was dropped. */
  datatype Record = Issued(name: string, grant: Grant) | Revoked(name: string)

  /** `minted` are the tokens handed out so far and `log` what became of them, newest last. */
  datatype State = State(nodes: map<string, Entry>, waiting: set<string>, minted: set<string>, log: seq<Record>)

  datatype Event =
    | Ask(name: string)                       // an enrolment request was recorded
    | Forget(name: string)                    // a waiting request expired
    | Issue(name: string, app: string, ip: string, token: string, now: real, ttlHours: int,
            requirePending: bool, replace: bool)
    | Rotate(name: string, token: string, now: real, ttlHours: int)
    | Revoke(name: string)
    | Seen(name: string, ip: string, now: real)

  // ------------------------------------------------------------------- operations

  predicate MayIssue(s: State, name: string, requirePending: bool, replace: bool) {
    && name != ""
    && (requirePending ==> name in s.waiting)
    && (name in s.nodes ==> replace)
  }

  function IssueToken(s: State, name: string, app: string, ip: string, token: string, now: real, ttlHours: int,
                      requirePending: bool, replace: bool): State {
    if !MayIssue(s, name, requirePending, replace) then s
    else
      State(s.nodes[name := Entry(app, Sha(token), Truncate(now), ttlHours, ip, None)], s.waiting - {name},
            s.minted + {token}, s.log + [Issued(name, Grant(app, token, Truncate(now), ttlHours))])
  }

  /** The second section of a rotation, with the identity the first one read. */
  function RotateToken(s: State, name: string, app: string, ip: string, token: string, now: real, ttlHours: int): State
  {
    IssueToken(s, name, app, ip, token, now, ttlHours, false, true)
  }

  function RevokeNode(s: State, name: string): State {
    var t := s.(nodes := s.nodes - {name}, waiting := s.waiting - {name});
    if name in s.nodes then t.(log := s.log + [Revoked(name)]) else t
  }

  function RecordSeen(s: State, name: string, ip: string, now: real): State {
    if name !in s.nodes then s
    else
      var e := s.nodes[name];
      s.(nodes := s.nodes[name := e.(lastSeen := Some(Truncate(now)), lastIp := if ip != "" then ip else e.lastIp)])
  }

  function Step(s: State, e: Event): State {
    match e
    case Ask(name) => s.(waiting := s.waiting + {name})
    case Forget(name) => s.(waiting := s.waiting - {name})
    case Issue(name, app, ip, token, now, ttl, requirePending, replace) =>
      IssueToken(s, name, app, ip, token, now, ttl, requirePending, replace)
    case Rotate(name, token, now, ttl) =>
      if name in s.nodes then RotateToken(s, name, s.nodes[name].app, s.nodes[name].lastIp, token, now, ttl) else s
    case Revoke(name) => RevokeNode(s, name)
    case Seen(name, ip, now) => RecordSeen(s, name, ip, now)
  }

  function Run(s: State, events: seq<Event>): State
    decreases |events|
  {
    if events == [] then s else Run(Step(s, events[0]), events[1..])
  }

  /** Seconds left, or None for a token that never expires. */
  function Remaining(issuedAt: int, ttlHours: int, now: real): Option<int> {
    if ttlHours < 0 then None else Some(Truncate((issuedAt + ttlHours * 3600) as real - now))
  }

  predicate Alive(issuedAt: int, ttlHours: int, now: real) {
    var left := Remaining(issuedAt, ttlHours, now);
    left.Some? ==> left.value > 0
  }

  /** A token counts as expired from one second before its time on. */
  lemma AliveMeans(issuedAt: int, ttlHours: int, now: real)
    ensures Alive(issuedAt, ttlHours, now) <==> ttlHours < 0 || now <= (issuedAt + ttlHours * 3600) as real - 1.0
  {
  }

  /** The first section of a check: does the token belong to the name and the identity. */
  predicate Matches(nodes: map<string, Entry>, name: string, app: string, token: string) {
    && name != "" && token != ""
    && name in nodes
    && (app == "" || nodes[name].app == "" || nodes[name].app == app)
    && nodes[name].hash == Sha(token)
  }

  /** The second section: a name that is gone by then has no expiry. */
  function ExpiryVerdict(nodes: map<string, Entry>, name: string, now: real): Verdict {
    if name !in nodes || Alive(nodes[name].issuedAt, nodes[name].ttlHours, now) then Ok else Expired
  }

  function Verify(nodes: map<string, Entry>, name: string, app: string, token: string, now: real): Verdict {
    if Matches(nodes, name, app, token) then ExpiryVerdict(nodes, name, now) else Unknown
  }

  // ----------------------------------------------------------- the operator's view

  /** What was last said about a name. */
  function Latest(log: seq<Record>, n: nat, name: string): Option<Grant>
    requires n <= |log|
  {
    if n == 0 then None
    else if log[n - 1].name == name then Granted(log[n - 1])
    else Latest(log, n - 1, name)
  }

  function Granted(r: Record): Option<Grant> {
    if r.Issued? then Some(r.grant) else None
  }

  function Current(s: State, name: string): Option<Grant> {
    Latest(s.log, |s.log|, name)
  }

  lemma {:induction false} LatestPrefix(log: seq<Record>, r: Record, n: nat, name: string)
    requires n <= |log|
    ensures Latest(log + [r], n, name) == Latest(log, n, name)
  {
    if n > 0 {
      LatestPrefix(log, r, n - 1, name);
    }
  }

  predicate Describes(r: Option<Grant>, nodes: map<string, Entry>, name: string) {
    match r
    case None => name !in nodes
    case Some(g) =>
      && name in nodes
      && nodes[name].app == g.app && nodes[name].hash == Sha(g.token)
      && nodes[name].issuedAt == g.issuedAt && nodes[name].ttlHours == g.ttlHours
  }

  /** The table is the log's newest word about every name, and no token belongs to two names. */
  ghost predicate Inv(s: State) {
    && (forall name :: Describes(Current(s, name), s.nodes, name))
    && "" !in s.nodes
    && (forall name | name in s.nodes :: s.nodes[name].hash.token in s.minted && s.nodes[name].hash.token != "")
    && (forall a, b | a in s.nodes && b in s.nodes && s.nodes[a].hash == s.nodes[b].hash :: a == b)
  }

  predicate UsesFreshToken(s: State, e: Event) {
    e.Issue? || e.Rotate? ==> e.token != "" && e.token !in s.minted
  }

  ghost predicate Fresh(s: State, events: seq<Event>)
    decreases |events|
  {
    events == [] || (UsesFreshToken(s, events[0]) && Fresh(Step(s, events[0]), events[1..]))
  }

  const EMPTY := State(map[], {}, {}, [])

  lemma LogAppend(s: State, t: State, r: Record)
    requires t.log == s.log + [r]
    ensures forall name ::
              Current(t, name) == if name == r.name then Granted(r) else Current(s, name)
  {
    forall name
      ensures Current(t, name) == if name == r.name then Granted(r) else Current(s, name)
    {
      LatestPrefix(s.log, r, |s.log|, name);
    }
  }

  lemma IssueKeepsInv(s: State, name: string, app: string, ip: string, token: string, now: real, ttl: int,
                      requirePending: bool, replace: bool)
    requires Inv(s) && token != "" && token !in s.minted
    ensures Inv(IssueToken(s, name, app, ip, token, now, ttl, requirePending, replace))
  {
    var t := IssueToken(s, name, app, ip, token, now, ttl, requirePending, replace);
    if MayIssue(s, name, requirePending, replace) {
      LogAppend(s, t, Issued(name, Grant(app, token, Truncate(now), ttl)));
    }
  }

  lemma StepKeepsInv(s: State, e: Event)
    requires Inv(s) && UsesFreshToken(s, e)
    ensures Inv(Step(s, e))
  {
    match e
    case Ask(name) =>
      assert forall n :: Current(Step(s, e), n) == Current(s, n);
    case Forget(name) =>
      assert forall n :: Current(Step(s, e), n) == Current(s, n);
    case Issue(name, app, ip, token, now, ttl, requirePending, replace) =>
      IssueKeepsInv(s, name, app, ip, token, now, ttl, requirePending, replace);
    case Rotate(name, token, now, ttl) =>
      if name in s.nodes {
        IssueKeepsInv(s, name, s.nodes[name].app, s.nodes[name].lastIp, token, now, ttl, false, true);
      }
    case Revoke(name) =>
      if name in s.nodes {
        LogAppend(s, RevokeNode(s, name), Revoked(name));
      } else {
        assert s.nodes - {name} == s.nodes;
        assert forall n :: Current(RevokeNode(s, name), n) == Current(s, n);
      }
    case Seen(name, ip, now) =>
      assert forall n :: Current(RecordSeen(s, name, ip, now), n) == Current(s, n);
  }

  lemma {:induction false} RunKeepsInv(s: State, events: seq<Event>)
    requires Inv(s) && Fresh(s, events)
    ensures Inv(Run(s, events))
    decreases |events|
  {
    if events != [] {
      StepKeepsInv(s, events[0]);
      RunKeepsInv(Step(s, events[0]), events[1..]);
    }
  }

  /** Over every run: the hub says ok exactly for the token last issued to that name and not revoked
      since, presented under a matching identity before its time is up. */
  lemma VerifiesExactlyTheLatest(events: seq<Event>, name: string, app: string, token: string, now: real)
    requires Fresh(EMPTY, events)
    ensures var s := Run(EMPTY, events);
            var r := Current(s, name);
            && (Verify(s.nodes, name, app, token, now) == Ok <==>
                  && r.Some? && r.value.token == token
                  && (app == "" || r.value.app == "" || r.value.app == app)
                  && Alive(r.value.issuedAt, r.value.ttlHours, now))
            && (Verify(s.nodes, name, app, token, now) == Unknown <==>
                  r.None? || r.value.token != token || !(app == "" || r.value.app == "" || r.value.app == app))
  {
    RunKeepsInv(EMPTY, events);
    var s := Run(EMPTY, events);
    assert Describes(Current(s, name), s.nodes, name);
  }

  /** Whether a search of the table for a token may come up with this name. */
  predicate Holds(nodes: map<string, Entry>, name: string, token: string) {
    token != "" && name in nodes && nodes[name].hash == Sha(token)
  }

  /** A search for a token finds the one name under which a check without an identity says ok or expired. */
  lemma TokenNamesExactly(events: seq<Event>, name: string, token: string, now: real)
    requires Fresh(EMPTY, events)
    ensures var s := Run(EMPTY, events);
            && (Verify(s.nodes, name, "", token, now) != Unknown <==> Holds(s.nodes, name, token))
            && forall other | Holds(s.nodes, other, token) && Holds(s.nodes, name, token) :: other == name
  {
    RunKeepsInv(EMPTY, events);
  }

  /** Without `replace` an enrolled entry is never touched. */
  lemma IssueRespectsEnrolled(s: State, name: string, app: string, ip: string, token: string, now: real, ttl: int,
                              requirePending: bool, other: string)
    requires other in s.nodes
    ensures var t := IssueToken(s, name, app, ip, token, now, ttl, requirePending, false);
            other in t.nodes && t.nodes[other] == s.nodes[other]
  {
  }

  // ------------------------------------------------- operations made of two sections

  /** What was last logged about a name from record `from` on. */
  function LastSince(log: seq<Record>, from: nat, n: nat, name: string): Option<Record>
    requires from <= n <= |log|
  {
    if n == from then None
    else if log[n - 1].name == name then Some(log[n - 1])
    else LastSince(log, from, n - 1, name)
  }

  lemma {:induction false} LatestIsLastSince(before: seq<Record>, log: seq<Record>, n: nat, name: string)
    requires before <= log && |before| <= n <= |log|
    ensures Latest(log, n, name) ==
            match LastSince(log, |before|, n, name)
            case None => Latest(before, |before|, name)
            case Some(r) => Granted(r)
  {
    if n > |before| {
      LatestIsLastSince(before, log, n - 1, name);
    } else {
      SameLatest(before, log, n, name);
    }
  }

  lemma {:induction false} SameLatest(before: seq<Record>, log: seq<Record>, n: nat, name: string)
    requires before <= log && n <= |before|
    ensures Latest(log, n, name) == Latest(before, n, name)
  {
    if n > 0 {
      SameLatest(before, log, n - 1, name);
    }
  }

  lemma {:induction false} LogGrows(s: State, events: seq<Event>)
    ensures s.log <= Run(s, events).log
    decreases |events|
  {
    if events != [] {
      LogGrows(Step(s, events[0]), events[1..]);
    }
  }

  /** A check reads the table twice; other operations may come between the readings. */
  function VerifyTwice(before: map<string, Entry>, later: map<string, Entry>,
                       name: string, app: string, token: string, now: real): Verdict {
    if Matches(before, name, app, token) then ExpiryVerdict(later, name, now) else Unknown
  }

  predicate GrantAlive(g: Grant, now: real) {
    Alive(g.issuedAt, g.ttlHours, now)
  }

  /** For all operations between the two readings of a check: its verdict is not that of its first
      reading exactly when the token belonged to the name then and since then the name was revoked
      although the token was expired, or a token that is alive was put in the place of an expired one
      or the other way round. */
  lemma TwoReadingsExactly(past: seq<Event>, between: seq<Event>, name: string, app: string, token: string, now: real)
    requires Fresh(EMPTY, past) && Fresh(Run(EMPTY, past), between)
    ensures var s := Run(EMPTY, past);
            var t := Run(s, between);
            && s.log <= t.log
            && (VerifyTwice(s.nodes, t.nodes, name, app, token, now) != Verify(s.nodes, name, app, token, now) <==>
                  && Verify(s.nodes, name, app, token, now) != Unknown
                  && var expired := Verify(s.nodes, name, app, token, now) == Expired;
                     match LastSince(t.log, |s.log|, |t.log|, name)
                     case None => false
                     case Some(Revoked(_)) => expired
                     case Some(Issued(_, grant)) => GrantAlive(grant, now) == expired)
  {
    RunKeepsInv(EMPTY, past);
    var s := Run(EMPTY, past);
    RunKeepsInv(s, between);
    var t := Run(s, between);
    LogGrows(s, between);
    LatestIsLastSince(s.log, t.log, |t.log|, name);
    assert Describes(Current(s, name), s.nodes, name) && Describes(Current(t, name), t.nodes, name);
  }

  /** An expired token is let in when its node is revoked between the two readings. */
  lemma RevokeBetweenReadings(s: State, name: string, app: string, token: string, now: real)
    requires Verify(s.nodes, name, app, token, now) == Expired
    ensures VerifyTwice(s.nodes, RevokeNode(s, name).nodes, name, app, token, now) == Ok
    ensures Verify(RevokeNode(s, name).nodes, name, app, token, now) == Unknown
  {
  }

  /** The first section of a rotation: what it remembers of the entry, if there is one. */
  function ReadEntry(s: State, name: string): Option<(string, string)> {
    if name in s.nodes then Some((s.nodes[name].app, s.nodes[name].lastIp)) else None
  }

  /** A rotation whose second section finds the table other operations left. */
  function RotateTwice(s: State, t: State, name: string, token: string, now: real, ttlHours: int): State {
    match ReadEntry(s, name)
    case None => t
    case Some((app, ip)) => RotateToken(t, name, app, ip, token, now, ttlHours)
  }

  /** For all operations between the two sections of a rotation: it does what one section at the end
      would do exactly when the second section still finds what the first one read. */
  lemma RotationExactly(past: seq<Event>, between: seq<Event>, name: string, token: string, now: real, ttl: int)
    requires Fresh(EMPTY, past) && Fresh(Run(EMPTY, past), between)
    ensures var s := Run(EMPTY, past);
            var t := Run(s, between);
            RotateTwice(s, t, name, token, now, ttl) == Step(t, Rotate(name, token, now, ttl)) <==>
            ReadEntry(t, name) == ReadEntry(s, name)
  {
    RunKeepsInv(EMPTY, past);
    var s := Run(EMPTY, past);
    RunKeepsInv(s, between);
    var t := Run(s, between);
    var u, v := RotateTwice(s, t, name, token, now, ttl), Step(t, Rotate(name, token, now, ttl));
    if name in s.nodes {
      assert u.nodes[name].app == s.nodes[name].app && u.nodes[name].lastIp == s.nodes[name].lastIp;
      assert name in t.nodes ==> v.nodes[name].app == t.nodes[name].app && v.nodes[name].lastIp == t.nodes[name].lastIp;
    } else if name in t.nodes {
      assert |v.log| == |t.log| + 1;
    }
  }

  /** What the table says about a name changes only with an operation on that name. */
  lemma {:induction false} UntouchedEntryStays(s: State, events: seq<Event>, name: string)
    requires forall e | e in events :: (e.Issue? || e.Rotate? || e.Revoke? || e.Seen?) ==> e.name != name
    ensures ReadEntry(Run(s, events), name) == ReadEntry(s, name)
    decreases |events|
  {
    if events != [] {
      assert events[0] in events;
      UntouchedEntryStays(Step(s, events[0]), events[1..], name);
    }
  }

  /** A rotation that read its entry before a revocation brings the node back, with the new token. */
  lemma RevokeDuringRotation(s: State, name: string, token: string, now: real, ttl: int)
    requires Inv(s) && name in s.nodes && token != "" && token !in s.minted
    ensures var t := RotateTwice(s, RevokeNode(s, name), name, token, now, ttl);
            && name !in RevokeNode(s, name).nodes && name in t.nodes
            && Verify(t.nodes, name, s.nodes[name].app, token, now) == if ttl == 0 then Expired else Ok
  {
  }
}
