/** The hub's tables as it keeps them: enrolled nodes, waiting requests and the per-address limiter. */
module HubTables {
  import opened Common
  import opened NodeTable
  import EnrolLimiter

  class Registry {
    var nodes: map<string, Entry>
    var pending: map<string, EnrolLimiter.Waiting>
    var rate: map<string, EnrolLimiter.Span>
    var ttlHours: int
    ghost var minted: set<string>
    ghost var log: seq<Record>
    ghost var passed: seq<EnrolLimiter.Pass>
    ghost var clock: real

    ghost function Table(): State
      reads this
    {
      State(nodes, pending.Keys, minted, log)
    }

    ghost function Limiter(): EnrolLimiter.State
      reads this
    {
      EnrolLimiter.State(pending, rate, passed, clock)
    }

    constructor (ttl: int, now: real)
      ensures Table() == EMPTY && Inv(Table())
      ensures Limiter() == EnrolLimiter.State(map[], map[], [], now)
      ensures ttlHours == ttl
    {
      nodes, pending, rate, ttlHours := map[], map[], map[], ttl;
      minted, log, passed, clock := {}, [], [], now;
    }

    method PrunePending(now: real)
      modifies `pending
      ensures pending == EnrolLimiter.PruneWaiting(old(pending), now)
    {
      var left := pending.Keys;
      while left != {}
        invariant left <= pending.Keys <= old(pending).Keys
        invariant forall name | name in pending :: pending[name] == old(pending)[name]
        invariant forall name | name in pending && name !in left ::
                    now - pending[name].requestedAt <= EnrolLimiter.PENDING_TTL
        invariant forall name | name in old(pending) && name !in pending ::
                    now - old(pending)[name].requestedAt > EnrolLimiter.PENDING_TTL
        decreases |left|
      {
        var name :| name in left;
        left := left - {name};
        if now - pending[name].requestedAt > EnrolLimiter.PENDING_TTL {
          pending := pending - {name};
        }
      }
    }

    method PruneRate(now: real)
      modifies `rate
      ensures rate == EnrolLimiter.PruneRate(old(rate), now)
    {
      if |rate| <= EnrolLimiter.RATE_TABLE_SOFT_CAP {
        return;
      }
      var left, kept := rate.Keys, map[];
      while left != {}
        invariant left <= rate.Keys && rate == old(rate)
        invariant forall ip | ip in kept :: ip in rate && kept[ip] == rate[ip]
        invariant forall ip | ip in rate ::
                    ip in kept <==> ip !in left && now - rate[ip].started < EnrolLimiter.RATE_WINDOW
        decreases |left|
      {
        var ip :| ip in left;
        left := left - {ip};
        if now - rate[ip].started < EnrolLimiter.RATE_WINDOW {
          kept := kept[ip := rate[ip]];
        }
      }
      rate := kept;
    }

    method EnrolRateOk(ip: string, now: real) returns (ok: bool)
      modifies `rate
      ensures (rate, ok) == EnrolLimiter.LimitRate(old(rate), ip, now, true)
    {
      if ip == "" {
        return true;
      }
      PruneRate(now);
      var w := if ip in rate then rate[ip] else EnrolLimiter.Span(now, 0);
      if now - w.started >= EnrolLimiter.RATE_WINDOW {
        rate := rate[ip := EnrolLimiter.Span(now, 1)];
        return true;
      }
      ok := w.count < EnrolLimiter.RATE_LIMIT;
      rate := rate[ip := EnrolLimiter.Span(w.started, w.count + 1)];
    }

    method Enrol(name: string, app: string, ip: string, now: real) returns (outcome: EnrolLimiter.Outcome)
      modifies `pending, `rate, `passed, `clock
      ensures (Limiter(), outcome) == EnrolLimiter.EnrolName(old(Limiter()), name, app, ip, now, true)
    {
      PrunePending(now);
      clock := now;
      if name !in pending {
        if |pending| >= EnrolLimiter.MAX_PENDING {
          return EnrolLimiter.Full;
        }
        var ok := EnrolRateOk(ip, now);
        if !ok {
          return EnrolLimiter.TooMany;
        }
        passed := if ip == "" then passed else passed + [EnrolLimiter.Pass(ip, now)];
        pending := pending[name := EnrolLimiter.Waiting(app, Truncate(now) as real, ip, 1)];
        return EnrolLimiter.Recorded;
      }
      var previous := pending[name];
      var at := if previous.requestedAt != 0.0 then previous.requestedAt else Truncate(now) as real;
      pending := pending[name := EnrolLimiter.Waiting(if app != "" then app else previous.app, at,
                                                      if ip != "" then ip else previous.ip, previous.requests + 1)];
      outcome := EnrolLimiter.Repeated(previous.requests + 1);
    }

    method Issue(name: string, app: string, ip: string, token: string, now: real,
                 requirePending: bool, replace: bool)
      returns (issued: Option<string>)
      modifies `nodes, `pending, `minted, `log
      ensures Table() == IssueToken(old(Table()), name, app, ip, token, now, ttlHours, requirePending, replace)
      ensures issued == if old(MayIssue(Table(), name, requirePending, replace)) then Some(token) else None
      ensures forall other | other in pending :: other in old(pending) && pending[other] == old(pending)[other]
    {
      if name == "" {
        return None;
      }
      if requirePending && name !in pending {
        return None;
      }
      if !replace && name in nodes {
        return None;
      }
      nodes := nodes[name := Entry(app, Sha(token), Truncate(now), ttlHours, ip, None)];
      pending := pending - {name};
      minted, log := minted + {token}, log + [Issued(name, Grant(app, token, Truncate(now), ttlHours))];
      return Some(token);
    }

    /** Both sections of a rotation, nothing between them. */
    method Rotate(name: string, token: string, now: real) returns (issued: Option<string>)
      modifies `nodes, `pending, `minted, `log
      ensures Table() == Step(old(Table()), Event.Rotate(name, token, now, ttlHours))
      ensures issued == if name in old(nodes) && name != "" then Some(token) else None
    {
      if name !in nodes {
        return None;
      }
      var app, ip := nodes[name].app, nodes[name].lastIp;
      issued := Issue(name, app, ip, token, now, false, true);
    }

    method Revoke(name: string) returns (found: bool)
      modifies `nodes, `pending, `log
      ensures Table() == RevokeNode(old(Table()), name)
      ensures found <==> name in old(nodes)
    {
      found := name in nodes;
      pending := pending - {name};
      if found {
        nodes := nodes - {name};
        log := log + [Revoked(name)];
      }
      assert !found ==> nodes - {name} == nodes;
    }

    method RecordSeen(name: string, ip: string, now: real)
      modifies `nodes
      ensures Table() == NodeTable.RecordSeen(old(Table()), name, ip, now)
    {
      if name !in nodes {
        return;
      }
      var e := nodes[name].(lastSeen := Some(Truncate(now)));
      if ip != "" {
        e := e.(lastIp := ip);
      }
      nodes := nodes[name := e];
    }

    method ExpiresIn(name: string, now: real) returns (left: Option<int>)
      ensures left == if name in nodes then Remaining(nodes[name].issuedAt, nodes[name].ttlHours, now) else None
    {
      if name !in nodes {
        return None;
      }
      var e := nodes[name];
      if e.ttlHours < 0 {
        return None;
      }
      return Some(Truncate((e.issuedAt + e.ttlHours * 3600) as real - now));
    }

    method Verify(name: string, app: string, token: string, now: real) returns (verdict: Verdict)
      ensures verdict == NodeTable.Verify(nodes, name, app, token, now)
    {
      if name == "" || token == "" {
        return Unknown;
      }
      if name !in nodes {
        return Unknown;
      }
      var e := nodes[name];
      if app != "" && e.app != "" && e.app != app {
        return Unknown;
      }
      if e.hash != Sha(token) {
        return Unknown;
      }
      var left := ExpiresIn(name, now);
      if left.Some? && left.value <= 0 {
        return Expired;
      }
      return Ok;
    }

    /** A search in no particular order; the invariant makes its answer the only one. */
    method NameForToken(token: string) returns (found: Option<string>)
      requires Inv(Table())
      ensures forall name :: found == Some(name) <==> Holds(nodes, name, token)
    {
      if token == "" {
        return None;
      }
      var left := nodes.Keys;
      while left != {}
        invariant left <= nodes.Keys
        invariant forall name | Holds(nodes, name, token) :: name in left
        decreases |left|
      {
        var name :| name in left;
        if nodes[name].hash == Sha(token) {
          return Some(name);
        }
        left := left - {name};
      }
      return None;
    }
  }
}
