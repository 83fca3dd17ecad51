/** The backend-facing service as an object (src/backbon/service/push_data.go,
    src/backbon/service/check_user_online.go,
    src/backbon/service/push_to_connection.go) over the router of its gateway. */
module Backbon {
  import opened RouteModel
  import opened Redis
  import opened FrontierModel
  import S = RouteSpec
  import RouteReads
  import R = RouterSpec
  import opened Frontier
  import opened Push
  import B = BackbonSpec

  /** The response under construction. */
  class PushResponse {
    var results: seq<R.PushResult>
    var successCount: nat
    var failCount: nat

    function Value(): B.PushDataResp
      reads this
    {
      B.PushDataResp(results, successCount, failCount)
    }

    constructor ()
      ensures Value() == B.NO_RESULTS
    {
      results, successCount, failCount := [], 0, 0;
    }

    method Append(result: R.PushResult)
      modifies this
      ensures Value() == B.AppendResult(old(Value()), result)
    {
      results := results + [result];
      if result.success {
        successCount := successCount + 1;
        return;
      }
      failCount := failCount + 1;
    }
  }

  class Service {
    const router: Router

    constructor (router: Router)
      ensures this.router == router
    {
      this.router := router;
    }

    /** Appending a result changes nothing of the fleet. */
    method AppendPushResult(resp: PushResponse, result: R.PushResult)
      requires router.Ready()
      modifies resp
      ensures router.Ready() && router.remotes.World() == old(router.remotes.World())
      ensures resp.Value() == B.AppendResult(old(resp.Value()), result)
    {
      resp.Append(result);
    }

    method ValidatePushRequest(req: Option<B.PushDataReq>, resp: PushResponse) returns (err: Option<string>)
      requires router.Ready()
      modifies resp
      ensures router.Ready() && router.remotes.World() == old(router.remotes.World())
      ensures err == B.Refusal(req)
      ensures err == None <==>
              req.Some? && req.value.message.Some? && (req.value.broadcast || req.value.userIDs != [])
      ensures resp.Value() ==
              if err.None? then old(resp.Value())
              else B.AppendResult(old(resp.Value()), R.PushResult("", false, R.StatusFailed, 0, err.value))
    {
      if req.None? {
        err := Some("request is required");
      } else if req.value.message.None? {
        err := Some("message is required");
      } else if !req.value.broadcast && |req.value.userIDs| == 0 {
        err := Some("userIDs is required when broadcast is false");
      } else {
        return None;
      }
      AppendPushResult(resp, R.PushResult("", false, R.StatusFailed, 0, err.value));
    }

    /** A refused request changes nothing; a broadcast reaches this gateway only; any
        other push takes the users in order, one result each. */
    method PushData(req: Option<B.PushDataReq>)
      returns (resp: PushResponse, err: Option<string>, ghost orders: seq<seq<string>>)
      requires router.Ready()
      modifies router.remotes.redis, router.remotes`net,
               router.remotes.Hubs()`messagesSent, router.remotes.Connections()`send
      ensures router.Ready() && fresh(resp) && err == B.Refusal(req)
      ensures err == None <==>
              req.Some? && req.value.message.Some? && (req.value.broadcast || req.value.userIDs != [])
      ensures var w, at := old(router.remotes.World()), router.localAddr;
              if err.Some? then
                && router.remotes.World() == w
                && resp.Value() == B.PushDataResp([R.PushResult("", false, R.StatusFailed, 0, err.value)], 0, 1)
              else if req.value.broadcast then
                && router.remotes.World() == R.WorldBroadcast(w, at, req.value.message.value)
                && resp.Value() == B.PushDataResp([R.BROADCAST_DONE], 1, 0)
              else
                && B.Answers(w, at, req.value.userIDs, orders, req.value.message.value)
                && var (w', value) := B.PushUsers(w, at, req.value.userIDs, orders, req.value.message.value);
                   router.remotes.World() == w' && resp.Value() == value
    {
      orders := [];
      resp := NewResponse();
      err := ValidatePushRequest(req, resp);
      if err.Some? { return; }
      if req.value.broadcast {
        PushToAll(req.value.message.value, resp);
        B.FirstResult(R.BROADCAST_DONE);
        return;
      }
      orders := PushToUsers(req.value.userIDs, req.value.message.value, resp);
    }

    method PushToAll(msg: Message, resp: PushResponse)
      requires router.Ready()
      modifies resp, router.remotes.Hubs()`messagesSent, router.remotes.Connections()`send
      ensures router.Ready()
      ensures router.remotes.World() == R.WorldBroadcast(old(router.remotes.World()), router.localAddr, msg)
      ensures resp.Value() == B.AppendResult(old(resp.Value()), R.BROADCAST_DONE)
    {
      ghost var w, value := router.remotes.World(), resp.Value();
      var result := router.Broadcast(msg);
      ghost var w1 := router.remotes.World();
      assert w1 == R.WorldBroadcast(w, router.localAddr, msg) && resp.Value() == value;
      AppendPushResult(resp, result);
      assert router.remotes.World() == w1;
    }

    method NewResponse() returns (resp: PushResponse)
      requires router.Ready()
      ensures router.Ready() && router.remotes.World() == old(router.remotes.World())
      ensures fresh(resp) && resp.Value() == B.NO_RESULTS
    {
      resp := new PushResponse();
    }

    method PushToOne(user: string, msg: Message, resp: PushResponse) returns (ghost ids: seq<string>)
      requires router.Ready()
      modifies resp, router.remotes.redis, router.remotes`net,
               router.remotes.Hubs()`messagesSent, router.remotes.Connections()`send
      ensures router.Ready()
      ensures Enumerates(ids, Members(old(router.remotes.World()).db, user))
      ensures var (w, r) := R.RouteUser(old(router.remotes.World()), router.localAddr, user, ids, msg);
              router.remotes.World() == w && resp.Value() == B.AppendResult(old(resp.Value()), r)
    {
      ghost var value := resp.Value();
      var result: R.PushResult;
      result, ids := router.RouteUser(user, msg);
      ghost var w1 := router.remotes.World();
      assert resp.Value() == value;
      AppendPushResult(resp, result);
      assert router.remotes.World() == w1;
    }

    /** One turn of the loop over the users. */
    method PushToNext(users: seq<string>, i: nat, msg: Message, resp: PushResponse, ghost w: R.World,
        ghost orders: seq<seq<string>>, ghost hubs: set<Hub>, ghost conns: set<Connection>)
      returns (ghost ids: seq<string>)
      requires router.Ready() && i < |users| && router.localAddr in w.hubs && RouteReads.Keyed(w.db)
      requires hubs == router.remotes.Hubs() && conns == router.remotes.Connections()
      requires B.Served(w, router.localAddr, users, i, orders, msg, router.remotes.World(), resp.Value())
      modifies resp, router.remotes.redis, router.remotes`net, hubs`messagesSent, conns`send
      ensures router.Ready() && hubs == router.remotes.Hubs() && conns == router.remotes.Connections()
      ensures B.Served(w, router.localAddr, users, i + 1, orders + [ids], msg, router.remotes.World(), resp.Value())
    {
      ghost var w1, value := router.remotes.World(), resp.Value();
      ids := PushToOne(users[i], msg, resp);
      B.NextOfUsers(w, router.localAddr, users, i, orders, ids, msg, w1, value);
    }

    method PushToUsers(users: seq<string>, msg: Message, resp: PushResponse) returns (ghost orders: seq<seq<string>>)
      requires router.Ready() && resp.Value() == B.NO_RESULTS
      modifies resp, router.remotes.redis, router.remotes`net,
               router.remotes.Hubs()`messagesSent, router.remotes.Connections()`send
      ensures router.Ready()
      ensures B.Answers(old(router.remotes.World()), router.localAddr, users, orders, msg)
      ensures var (w, value) := B.PushUsers(old(router.remotes.World()), router.localAddr, users, orders, msg);
              router.remotes.World() == w && resp.Value() == value
    {
      ghost var w, at := router.remotes.World(), router.localAddr;
      ghost var hubs, conns := router.remotes.Hubs(), router.remotes.Connections();
      orders := [];
      for i := 0 to |users|
        invariant router.Ready() && hubs == router.remotes.Hubs() && conns == router.remotes.Connections()
        invariant B.Served(w, at, users, i, orders, msg, router.remotes.World(), resp.Value())
      {
        var ids := PushToNext(users, i, msg, resp, w, orders, hubs, conns);
        orders := orders + [ids];
      }
      B.AllServed(w, at, users, orders, msg, router.remotes.World(), resp.Value());
    }

    /** A refused request changes nothing, any other is routed from this gateway. */
    method PushToConnection(req: Option<B.PushToConnectionReq>) returns (resp: R.Resp, err: Option<string>)
      requires router.Ready()
      modifies router.remotes.redis, router.remotes`net,
               router.remotes.Hubs()`messagesSent, router.remotes.Connections()`send
      ensures router.Ready()
      ensures req.None? || req.value.connectionID == "" || req.value.message.None? ==> err.Some? && !resp.success
      ensures match B.ConnectionRefusal(req)
              case Some(reason) =>
                && router.remotes.World() == old(router.remotes.World())
                && resp == R.Resp(false, R.StatusFailed, reason) && err == Some(reason)
              case None =>
                var a := R.RouteConnection(old(router.remotes.World()), router.localAddr, req.value.connectionID,
                                           req.value.message.value);
                router.remotes.World() == a.world && resp == a.resp && err == a.err
    {
      if req.None? {
        err := Some("request is required");
      } else if req.value.connectionID == "" {
        err := Some("connectionID is required");
      } else if req.value.message.None? {
        err := Some("message is required");
      } else {
        resp, err := router.RouteConnection(req.value.connectionID, req.value.message.value);
        return;
      }
      resp := R.Resp(false, R.StatusFailed, err.value);
    }

    /** The user's status from the routes a listing finds. */
    method CheckUserOnlineStatus(user: string) returns (status: B.UserOnlineStatus, ghost ids: seq<string>)
      requires router.Ready()
      modifies router.remotes.redis
      ensures router.Ready()
      ensures Enumerates(ids, Members(old(router.remotes.redis.db), user))
      ensures var (db, listed) := S.ListByUser(old(router.remotes.redis.db), user, ids);
              router.remotes.World() == old(router.remotes.World()).(db := db) && status == B.StatusOf(user, listed)
    {
      var listed: Result<seq<ConnectionMeta>>;
      listed, ids := router.ListRoutes(user);
      if listed.Err? { return B.UserOnlineStatus(user, false, 0, 0), ids; }
      var metas := listed.value;
      var latest := 0;
      for i := 0 to |metas|
        invariant latest == B.LatestActivity(metas[..i])
      {
        assert metas[..i + 1][..i] == metas[..i];
        if metas[i].lastActiveAt > latest { latest := metas[i].lastActiveAt; }
      }
      assert metas[..|metas|] == metas;
      return B.UserOnlineStatus(user, |metas| > 0, |metas|, latest), ids;
    }

    /** The statuses of the named users, in order; empty IDs are skipped. */
    method CheckUserOnline(req: Option<seq<string>>)
      returns (statuses: seq<B.UserOnlineStatus>, ghost orders: seq<seq<string>>)
      requires router.Ready()
      modifies router.remotes.redis
      ensures router.Ready()
      ensures var users := if req.None? then [] else req.value;
              && B.ListsInTurn(old(router.remotes.redis.db), users, orders)
              && var (db, s) := B.CheckUsers(old(router.remotes.redis.db), users, orders);
                 router.remotes.World() == old(router.remotes.World()).(db := db) && statuses == s
    {
      ghost var w := router.remotes.World();
      statuses, orders := [], [];
      if req.None? { return; }
      var users := req.value;
      for i := 0 to |users|
        invariant router.Ready()
        invariant B.ListsInTurn(w.db, users[..i], orders)
        invariant router.remotes.World() == w.(db := B.CheckUsers(w.db, users[..i], orders).0)
        invariant statuses == B.CheckUsers(w.db, users[..i], orders).1
      {
        assert users[..i + 1] == users[..i] + [users[i]];
        ghost var ids: seq<string> := [];
        if users[i] != "" {
          var status: B.UserOnlineStatus;
          status, ids := CheckUserOnlineStatus(users[i]);
          statuses := statuses + [status];
        }
        B.NextChecked(w.db, users[..i], orders, users[i], ids);
        orders := orders + [ids];
      }
      assert users[..|users|] == users;
    }
  }
}
