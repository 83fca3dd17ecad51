/** The push router as objects (src/push/router.go, src/push/result.go): routers on
    several gateways share one Redis and call each other, and every method does to
    the whole fleet what RouterSpec says. */
module Push {
  import opened RouteModel
  import opened Redis
  import opened FrontierModel
  import S = RouteSpec
  import RouteReads
  import opened RouteStore
  import opened Frontier
  import R = RouterSpec

  datatype RouteOutcome = Delivered | WasStale | WasOffline | WasFailure(error: string)

  /** What an answer of the remote gateway counts as. */
  function OutcomeOf(resp: R.Resp): RouteOutcome {
    match resp.status
    case StatusSuccess => Delivered
    case StaleCleaned => WasStale
    case NoopOffline => WasOffline
    case _ => WasFailure(resp.error)
  }

  function Counted(outcome: RouteOutcome, s: R.Summary): R.Summary {
    match outcome
    case Delivered => s.AddSuccess()
    case WasStale => s.AddStale()
    case WasOffline => s.AddNoop()
    case WasFailure(error) => s.AddFail(error)
  }

  /** The counters of one push to a user, shared by the helpers of the loop. */
  class RouteSummary {
    var successCount: nat
    var staleCount: nat
    var noopCount: nat
    var failCount: nat
    var firstError: string

    function Value(): R.Summary
      reads this
    {
      R.Summary(successCount, staleCount, noopCount, failCount, firstError)
    }

    constructor ()
      ensures Value() == R.EMPTY_SUMMARY
    {
      successCount, staleCount, noopCount, failCount, firstError := 0, 0, 0, 0, "";
    }

    method Success()
      modifies this
      ensures Value() == old(Value()).AddSuccess()
    {
      successCount := successCount + 1;
    }

    method Stale()
      modifies this
      ensures Value() == old(Value()).AddStale()
    {
      staleCount := staleCount + 1;
    }

    method Noop()
      modifies this
      ensures Value() == old(Value()).AddNoop()
    {
      noopCount := noopCount + 1;
    }

    method Fail(error: string)
      modifies this
      ensures Value() == old(Value()).AddFail(error)
    {
      failCount := failCount + 1;
      if firstError == "" { firstError := error; }
    }

    method Record(outcome: RouteOutcome)
      modifies this
      ensures Value() == Counted(outcome, old(Value()))
    {
      match outcome {
        case Delivered => Success();
        case WasStale => Stale();
        case WasOffline => Noop();
        case WasFailure(error) => Fail(error);
      }
    }

    function ToPushResult(user: string): R.PushResult
      reads this
    {
      Value().ToPushResult(user)
    }
  }

  /** A local route, by what its send counts as. */
  lemma LocalCounts(w: R.World, at: string, meta: ConnectionMeta, msg: Message, s: R.Summary)
    requires at in w.hubs
    ensures var (w', s') := R.RouteLocal(w, at, meta, msg, s);
            if meta.connectionID in w.hubs[at] then
              var (w1, sent) := R.WorldSend(w, at, meta.connectionID, msg);
              w' == w1 && s' == Counted(if sent.Accepted? then Delivered else WasFailure(R.SendText(sent)), s)
            else w' == R.CleanupRoute(w, meta) && s' == Counted(WasStale, s)
  {
  }

  /** A remote route, by what its answer counts as. */
  lemma RemoteCounts(w: R.World, meta: ConnectionMeta, msg: Message, s: R.Summary)
    requires RouteReads.Keyed(w.db)
    ensures var a := R.PushRemote(w, meta.gatewayAddr, meta.connectionID, msg);
            var (w', s') := R.RouteRemote(w, meta, msg, s);
            && s' == Counted(if a.err.Some? then WasFailure(a.err.value) else OutcomeOf(a.resp), s)
            && w' == if a.err.None? && a.resp.status.StaleCleaned? then R.CleanupRoute(a.world, meta) else a.world
  {
  }

  lemma ListedRoutes(w: R.World, at: string, user: string, ids: seq<string>, msg: Message)
    requires at in w.hubs && RouteReads.Keyed(w.db) && user != ""
    ensures var (db, listed) := S.ListByUser(w.db, user, ids);
            listed.Ok? ==>
              && RouteReads.Keyed(db)
              && var (w', s) := R.RouteAll(w.(db := db), at, listed.value, msg);
                 R.RouteUser(w, at, user, ids, msg) == (w', s.ToPushResult(user))
  {
    R.ListStaysKeyed(w.db, user, ids);
  }

  lemma SentFrom(w: R.World, w': R.World, at: string, id: string, msg: Message)
    requires at in w.hubs && w'.hubs.Keys == w.hubs.Keys
    requires w'.db == w.db && w'.net == w.net
    requires w'.hubs[at] == R.HubSend(w.hubs[at], id, msg).0
    requires forall addr :: addr in w.hubs && addr != at ==> w'.hubs[addr] == w.hubs[addr]
    ensures w' == R.WorldSend(w, at, id, msg).0
  {
    assert w'.hubs == w.hubs[at := w'.hubs[at]];
  }

  lemma BroadcastFrom(w: R.World, w': R.World, at: string, msg: Message)
    requires at in w.hubs && w'.hubs.Keys == w.hubs.Keys
    requires w'.db == w.db && w'.net == w.net
    requires w'.hubs[at] == map id | id in w.hubs[at] :: Send(w.hubs[at][id], msg)
    requires forall addr :: addr in w.hubs && addr != at ==> w'.hubs[addr] == w.hubs[addr]
    ensures w' == R.WorldBroadcast(w, at, msg)
  {
    assert w'.hubs == w.hubs[at := w'.hubs[at]];
  }

  /** The gateways that can be called by address; `net` holds the outcomes of the
      calls still to come. */
  class Network {
    const redis: Cache
    var routers: map<string, Router>
    var net: seq<R.Link>

    constructor (redis: Cache, net: seq<R.Link>)
      ensures this.redis == redis && routers == map[] && this.net == net
    {
      this.redis, this.routers, this.net := redis, map[], net;
    }

    ghost function Hubs(): set<Hub>
      reads this`routers
    {
      set addr | addr in routers :: routers[addr].hub
    }

    ghost function Connections(): set<Connection>
      reads this`routers, Hubs()`connections
    {
      set addr, id | addr in routers && id in routers[addr].hub.connections :: routers[addr].hub.connections[id]
    }

    /** Each gateway answers under its own address, with its own hub. */
    ghost predicate Valid()
      reads this`routers, Hubs(), Connections()
    {
      && (forall addr :: addr in routers ==>
          var r := routers[addr];
          r.localAddr == addr && r.remotes == this && r.store.redis == redis && r.hub.Valid())
      && (forall a, b :: a in routers && b in routers && a != b ==> routers[a].hub != routers[b].hub)
    }

    ghost function World(): R.World
      reads this, redis, Hubs(), Connections()
    {
      R.World(redis.db, map addr | addr in routers :: routers[addr].hub.Conns(), net)
    }

    /** Different gateways hold different connections. */
    lemma Apart(a: string, b: string)
      requires Valid() && a in routers && b in routers && a != b
      ensures routers[a].hub.connections.Values !! routers[b].hub.connections.Values
    {
      forall c | c in routers[a].hub.connections.Values ensures c !in routers[b].hub.connections.Values {
        assert c.hub == routers[a].hub;
      }
    }
  }

  class Router {
    const store: RedisStore
    const hub: Hub
    const remotes: Network
    const localAddr: string

    constructor (store: RedisStore, hub: Hub, remotes: Network, localAddr: string)
      ensures this.store == store && this.hub == hub && this.remotes == remotes && this.localAddr == localAddr
    {
      this.store, this.hub, this.remotes, this.localAddr := store, hub, remotes, localAddr;
    }

    ghost predicate Ready()
      reads this, remotes, remotes.Hubs(), remotes.Connections(), remotes.redis
    {
      && remotes.Valid()
      && localAddr in remotes.routers && remotes.routers[localAddr] == this
      && RouteReads.Keyed(remotes.redis.db)
    }

    predicate IsLocal(addr: string) { addr == localAddr }

    /** This hub's connections are among the fleet's and no other gateway's. */
    lemma OwnConnections()
      requires Ready()
      ensures hub in remotes.Hubs()
      ensures forall c :: c in hub.connections.Values ==> c in remotes.Connections()
      ensures forall addr :: addr in remotes.routers && addr != localAddr ==>
                && remotes.routers[addr].hub != hub
                && remotes.routers[addr].hub.connections.Values !! hub.connections.Values
    {
      forall addr | addr in remotes.routers && addr != localAddr
        ensures remotes.routers[addr].hub != hub
        ensures remotes.routers[addr].hub.connections.Values !! hub.connections.Values
      {
        remotes.Apart(addr, localAddr);
      }
    }

    /** A send through this gateway's hub leaves the other hubs as they were. */
    method HubSend(id: string, msg: Message) returns (r: SendResult)
      requires Ready()
      modifies remotes.Hubs()`messagesSent, remotes.Connections()`send
      ensures Ready()
      ensures (hub.Conns(), r) == R.HubSend(old(hub.Conns()), id, msg)
      ensures forall addr :: addr in remotes.routers && addr != localAddr ==>
                remotes.routers[addr].hub.Conns() == old(remotes.routers[addr].hub.Conns())
    {
      OwnConnections();
      r := hub.SendToConnection(id, msg);
      forall addr | addr in remotes.routers && addr != localAddr
        ensures remotes.routers[addr].hub.Valid()
        ensures remotes.routers[addr].hub.Conns() == old(remotes.routers[addr].hub.Conns())
      {
      }
    }

    /** The same, seen from the whole fleet. */
    method LocalSend(id: string, msg: Message) returns (r: SendResult)
      requires Ready()
      modifies remotes.Hubs()`messagesSent, remotes.Connections()`send
      ensures Ready()
      ensures var (w, sent) := R.WorldSend(old(remotes.World()), localAddr, id, msg);
              remotes.World() == w && r == sent
    {
      ghost var w := remotes.World();
      assert w.hubs[localAddr] == hub.Conns();
      r := HubSend(id, msg);
      SentFrom(w, remotes.World(), localAddr, id, msg);
    }

    /** Store operations change the fleet's database and nothing else. */
    method ReadRoute(id: string) returns (got: Result<ConnectionMeta>)
      requires Ready()
      modifies remotes.redis
      ensures Ready()
      ensures var (db, r) := S.GetMeta(old(remotes.redis.db), id);
              remotes.World() == old(remotes.World()).(db := db) && got == r
    {
      S.GetOnlyReads(remotes.redis.db, id);
      got := store.Get(id);
    }

    method CleanRoute(user: string, id: string)
      requires Ready()
      modifies remotes.redis
      ensures Ready()
      ensures remotes.World() == old(remotes.World()).(db := S.Cleanup(old(remotes.redis.db), user, id).0)
    {
      R.CleanupStaysKeyed(remotes.redis.db, user, id);
      var _ := store.Cleanup(user, id);
    }

    method ListRoutes(user: string) returns (listed: Result<seq<ConnectionMeta>>, ghost ids: seq<string>)
      requires Ready()
      modifies remotes.redis
      ensures Ready()
      ensures Enumerates(ids, Members(old(remotes.redis.db), user))
      ensures var (db, r) := S.ListByUser(old(remotes.redis.db), user, ids);
              remotes.World() == old(remotes.World()).(db := db) && listed == r
    {
      ghost var db := remotes.redis.db;
      listed, ids := store.ListByUser(user);
      R.ListStaysKeyed(db, user, ids);
    }

    /** The next remote call's outcome. */
    method NextCall() returns (link: R.Link)
      requires Ready()
      modifies remotes`net
      ensures Ready()
      ensures remotes.World() == R.ConsumeLink(old(remotes.World())) && link == R.NextLink(old(remotes.World()))
    {
      link := if remotes.net == [] then R.Answered else remotes.net[0];
      if remotes.net != [] { remotes.net := remotes.net[1..]; }
    }

    /** PushToConnection as the gateway at `addr` serves it; its handler's error, an
        unreachable gateway and a lost reply all reach the caller as an error. */
    method PushRemote(addr: string, id: string, msg: Message) returns (resp: R.Resp, err: Option<string>)
      requires Ready()
      modifies remotes.redis, remotes`net, remotes.Hubs()`messagesSent, remotes.Connections()`send
      ensures Ready()
      ensures var a := R.PushRemote(old(remotes.World()), addr, id, msg);
              remotes.World() == a.world && resp == a.resp && err == a.err
      decreases R.Hops(remotes.redis.db, addr, id), 1
    {
      if addr !in remotes.routers {
        return R.Resp(false, R.StatusFailed, R.CALL_FAILED), Some(R.CALL_FAILED);
      }
      var link := NextCall();
      if link.Unreachable? {
        return R.Resp(false, R.StatusFailed, R.CALL_FAILED), Some(R.CALL_FAILED);
      }
      resp, err := remotes.routers[addr].RouteConnection(id, msg);
      if err.Some? { return R.Resp(false, R.StatusFailed, err.value), err; }
      if link.ReplyLost? { return R.Resp(false, R.StatusFailed, R.CALL_FAILED), Some(R.CALL_FAILED); }
      if link.EmptyReply? { return R.Resp(false, R.StatusFailed, R.INVALID_REPLY), None; }
    }

    method RouteConnection(id: string, msg: Message) returns (resp: R.Resp, err: Option<string>)
      requires Ready()
      modifies remotes.redis, remotes`net, remotes.Hubs()`messagesSent, remotes.Connections()`send
      ensures Ready()
      ensures var a := R.RouteConnection(old(remotes.World()), localAddr, id, msg);
              remotes.World() == a.world && resp == a.resp && err == a.err
      decreases R.Hops(remotes.redis.db, localAddr, id), 0
    {
      if id == "" {
        return R.Resp(false, R.StatusFailed, "connectionID is required"), Some("connectionID is required");
      }
      ghost var w := remotes.World();
      var conn := hub.GetConnection(id);
      assert id in w.hubs[localAddr] <==> conn != null;
      if conn != null {
        var sent := LocalSend(id, msg);
        assert R.WorldSend(w, localAddr, id, msg) == (remotes.World(), sent);
        if !sent.Accepted? { return R.Resp(false, R.StatusFailed, R.SendText(sent)), Some(R.SendText(sent)); }
        return R.Resp(true, R.StatusSuccess, ""), None;
      }
      var got := ReadRoute(id);
      if got.Err? {
        return R.Resp(false, R.StaleCleaned, "connection not found"),
               Some("connection " + id + " not found: " + R.ErrorText(got.error));
      }
      var meta := got.value;
      if IsLocal(meta.gatewayAddr) {
        CleanRoute(meta.userID, id);
        return R.Resp(false, R.StaleCleaned, "local connection is stale"), None;
      }
      resp, err := PushRemote(meta.gatewayAddr, meta.connectionID, msg);
    }

    // ----- pushing to a user -----

    /** Counting a route changes nothing of the fleet. */
    method Count(outcome: RouteOutcome, summary: RouteSummary)
      requires Ready()
      modifies summary
      ensures Ready() && remotes.World() == old(remotes.World())
      ensures summary.Value() == Counted(outcome, old(summary.Value()))
    {
      summary.Record(outcome);
    }

    method CountStale(meta: ConnectionMeta, summary: RouteSummary)
      requires Ready()
      modifies remotes.redis, summary
      ensures Ready() && remotes.World() == R.CleanupRoute(old(remotes.World()), meta)
      ensures summary.Value() == Counted(WasStale, old(summary.Value()))
    {
      Count(WasStale, summary);
      CleanRoute(meta.userID, meta.connectionID);
    }

    method RouteLocalConnection(meta: ConnectionMeta, msg: Message, summary: RouteSummary)
      requires Ready()
      modifies remotes.redis, remotes.Hubs()`messagesSent, remotes.Connections()`send, summary
      ensures Ready()
      ensures var (w, s) := R.RouteLocal(old(remotes.World()), localAddr, meta, msg, old(summary.Value()));
              remotes.World() == w && summary.Value() == s
    {
      ghost var w := remotes.World();
      ghost var s := summary.Value();
      LocalCounts(w, localAddr, meta, msg, s);
      var conn := hub.GetConnection(meta.connectionID);
      assert meta.connectionID in w.hubs[localAddr] <==> conn != null;
      if conn == null {
        CountStale(meta, summary);
        return;
      }
      var sent := LocalSend(meta.connectionID, msg);
      ghost var w1 := remotes.World();
      assert summary.Value() == s;
      Count(if sent.Accepted? then Delivered else WasFailure(R.SendText(sent)), summary);
      assert remotes.World() == w1;
    }

    method RouteRemoteConnection(meta: ConnectionMeta, msg: Message, summary: RouteSummary)
      requires Ready()
      modifies remotes.redis, remotes`net, remotes.Hubs()`messagesSent, remotes.Connections()`send, summary
      ensures Ready()
      ensures var (w, s) := R.RouteRemote(old(remotes.World()), meta, msg, old(summary.Value()));
              remotes.World() == w && summary.Value() == s
    {
      ghost var w := remotes.World();
      var resp, err := PushRemote(meta.gatewayAddr, meta.connectionID, msg);
      RemoteCounts(w, meta, msg, summary.Value());
      ghost var w1 := remotes.World();
      Count(if err.Some? then WasFailure(err.value) else OutcomeOf(resp), summary);
      if err.None? && resp.status.StaleCleaned? {
        CleanRoute(meta.userID, meta.connectionID);
        assert remotes.World() == R.CleanupRoute(w1, meta);
      }
    }

    method RouteConnectionMeta(meta: ConnectionMeta, msg: Message, summary: RouteSummary)
      requires Ready()
      modifies remotes.redis, remotes`net, remotes.Hubs()`messagesSent, remotes.Connections()`send, summary
      ensures Ready()
      ensures var (w, s) := R.RouteMeta(old(remotes.World()), localAddr, meta, msg, old(summary.Value()));
              remotes.World() == w && summary.Value() == s
    {
      if meta.connectionID == "" { return; }
      if IsLocal(meta.gatewayAddr) {
        RouteLocalConnection(meta, msg, summary);
        return;
      }
      RouteRemoteConnection(meta, msg, summary);
    }

    method RouteEach(metas: seq<ConnectionMeta>, msg: Message) returns (summary: RouteSummary)
      requires Ready()
      modifies remotes.redis, remotes`net, remotes.Hubs()`messagesSent, remotes.Connections()`send
      ensures Ready() && fresh(summary)
      ensures var (w, s) := R.RouteAll(old(remotes.World()), localAddr, metas, msg);
              remotes.World() == w && summary.Value() == s
    {
      ghost var w := remotes.World();
      summary := new RouteSummary();
      assert Ready() && remotes.World() == w;
      for i := 0 to |metas|
        invariant Ready()
        invariant (remotes.World(), summary.Value()) == R.RouteAll(w, localAddr, metas[..i], msg)
      {
        ghost var upTo := metas[..i + 1];
        assert upTo[..i] == metas[..i];
        RouteConnectionMeta(metas[i], msg, summary);
      }
      assert metas[..|metas|] == metas;
    }

    method RouteUser(user: string, msg: Message) returns (r: R.PushResult, ghost ids: seq<string>)
      requires Ready()
      modifies remotes.redis, remotes`net, remotes.Hubs()`messagesSent, remotes.Connections()`send
      ensures Ready()
      ensures Enumerates(ids, Members(old(remotes.redis.db), user))
      ensures var (w, x) := R.RouteUser(old(remotes.World()), localAddr, user, ids, msg);
              remotes.World() == w && r == x
    {
      if user == "" {
        return R.PushResult(user, false, R.StatusFailed, 0, "userID is empty"),
               S.EnumerateSet(Members(remotes.redis.db, user));
      }
      ghost var w := remotes.World();
      var listed: Result<seq<ConnectionMeta>>;
      listed, ids := ListRoutes(user);
      ghost var w1 := w.(db := S.ListByUser(w.db, user, ids).0);
      assert remotes.World() == w1;
      if listed.Err? {
        if listed.error.NoLiveConnections? { return R.PushResult(user, true, R.NoopOffline, 0, ""), ids; }
        return R.PushResult(user, false, R.StatusFailed, 0, R.ErrorText(listed.error)), ids;
      }
      var summary := RouteEach(listed.value, msg);
      ListedRoutes(w, localAddr, user, ids, msg);
      r := summary.ToPushResult(user);
    }

    /** A broadcast through this gateway's hub leaves the other hubs as they were. */
    method HubBroadcast(msg: Message)
      requires Ready()
      modifies remotes.Hubs()`messagesSent, remotes.Connections()`send
      ensures Ready()
      ensures hub.Conns() == map id | id in old(hub.Conns()) :: Send(old(hub.Conns())[id], msg)
      ensures forall addr :: addr in remotes.routers && addr != localAddr ==>
                remotes.routers[addr].hub.Conns() == old(remotes.routers[addr].hub.Conns())
    {
      OwnConnections();
      hub.Broadcast(msg);
      forall addr | addr in remotes.routers && addr != localAddr
        ensures remotes.routers[addr].hub.Valid()
        ensures remotes.routers[addr].hub.Conns() == old(remotes.routers[addr].hub.Conns())
      {
      }
    }

    method Broadcast(msg: Message) returns (r: R.PushResult)
      requires Ready()
      modifies remotes.Hubs()`messagesSent, remotes.Connections()`send
      ensures Ready()
      ensures var (w, x) := R.RouteBroadcast(old(remotes.World()), localAddr, msg);
              remotes.World() == w && r == x
    {
      ghost var w := remotes.World();
      assert w.hubs[localAddr] == hub.Conns();
      HubBroadcast(msg);
      BroadcastFrom(w, remotes.World(), localAddr, msg);
      return R.PushResult("", true, R.StatusSuccess, 0, "");
    }
  }
}
