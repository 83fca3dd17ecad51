/** The push router across gateways (src/push/router.go, src/push/result.go), as
    functions of the whole fleet: every gateway's connections, the shared Redis and
    the outcomes of the remote calls still to come. */
module RouterSpec {
  import opened RouteModel
  import opened Redis
  import opened FrontierModel
  import S = RouteSpec
  import opened RouteReads

  datatype PushStatus = StatusUnknown | StatusSuccess | NoopOffline | StaleCleaned | StatusFailed

  datatype PushResult = PushResult(
    userID: string, success: bool, status: PushStatus, connectionCount: int, error: string)

  datatype Resp = Resp(success: bool, status: PushStatus, error: string)

  /** One remote call: answered, never delivered, or handled with its reply lost or empty. */
  datatype Link = Answered | Unreachable | ReplyLost | EmptyReply

  type Hub = map<string, ConnState>

  /** `hubs` holds the connections of every gateway by the gateway's address; once
      `net` is exhausted every remote call is answered. */
  datatype World = World(db: Db, hubs: map<string, Hub>, net: seq<Link>)

  function NextLink(w: World): Link { if w.net == [] then Answered else w.net[0] }

  function ConsumeLink(w: World): World { if w.net == [] then w else w.(net := w.net[1..]) }

  // ----- error texts -----

  function ErrorText(e: Error): string {
    match e
    case InvalidArgument => "userID and connectionID are required"
    case ConnectionMissing => "connection route missing"
    case NoLiveConnections => "no live connections"
    case WrongOwner => "connection belongs to another user"
    case RedisFailure => "redis failure"
  }

  function SendText(r: SendResult): string {
    match r
    case Accepted => ""
    case ConnectionClosed => "connection closed"
    case SendBufferFull => "send buffer full"
  }

  /** What a broadcast reports, whatever the connections' queues say. */
  const BROADCAST_DONE := PushResult("", true, StatusSuccess, 0, "")

  const CALL_FAILED := "remote call failed"
  const INVALID_REPLY := "invalid response from remote service"

  // ----- the summary of one user's routes (result.go) -----

  datatype Summary = Summary(successCount: nat, staleCount: nat, noopCount: nat, failCount: nat, firstError: string) {
    function AddSuccess(): Summary { this.(successCount := successCount + 1) }

    function AddStale(): Summary { this.(staleCount := staleCount + 1) }

    function AddNoop(): Summary { this.(noopCount := noopCount + 1) }

    function AddFail(error: string): Summary {
      this.(failCount := failCount + 1, firstError := if firstError == "" then error else firstError)
    }

    /** Success first, then failure, then stale, then offline. */
    function ToPushResult(user: string): (r: PushResult)
      ensures r.userID == user && r.connectionCount == successCount
      ensures r.status == StatusSuccess <==> successCount > 0
      ensures r.status == StatusFailed <==> successCount == 0 < failCount
      ensures r.status == StaleCleaned <==> successCount == failCount == 0 < staleCount
      ensures r.status == NoopOffline <==> successCount == failCount == staleCount == 0
      ensures r.success <==> r.status != StatusFailed
      ensures r.error == if r.success then "" else firstError
    {
      if successCount > 0 then PushResult(user, true, StatusSuccess, successCount, "")
      else if failCount > 0 then PushResult(user, false, StatusFailed, 0, firstError)
      else if staleCount > 0 then PushResult(user, true, StaleCleaned, 0, "")
      else PushResult(user, true, NoopOffline, 0, "")
    }
  }

  const EMPTY_SUMMARY := Summary(0, 0, 0, 0, "")

  // ----- pushing to one connection -----

  /** `err` is the handler's error; `visited` lists the gateways that handled the push. */
  datatype Answer = Answer(world: World, resp: Resp, err: Option<string>, visited: seq<string>)

  function HubSend(hub: Hub, id: string, msg: Message): (Hub, SendResult) {
    if id in hub then (hub[id := Send(hub[id], msg)], Verdict(hub[id])) else (hub, ConnectionClosed)
  }

  function WorldSend(w: World, at: string, id: string, msg: Message): (World, SendResult)
    requires at in w.hubs
  {
    var (hub, result) := HubSend(w.hubs[at], id, msg);
    (w.(hubs := w.hubs[at := hub]), result)
  }

  /** A broadcast reaches the connections of the gateway that serves it, no others. */
  function WorldBroadcast(w: World, at: string, msg: Message): World
    requires at in w.hubs
  {
    w.(hubs := w.hubs[at := map id | id in w.hubs[at] :: Send(w.hubs[at][id], msg)])
  }

  function RouteBroadcast(w: World, at: string, msg: Message): (World, PushResult)
    requires at in w.hubs
  {
    (WorldBroadcast(w, at, msg), BROADCAST_DONE)
  }

  /** 1 when the fact of `id` names a gateway other than `at`, else 0. */
  function Hops(db: Db, at: string, id: string): nat {
    match S.Seen(db, id)
    case None => 0
    case Some(meta) => if meta.gatewayAddr == at then 0 else 1
  }

  function RouteConnection(w: World, at: string, id: string, msg: Message): (a: Answer)
    requires at in w.hubs && Keyed(w.db)
    ensures a.world.hubs.Keys == w.hubs.Keys && Keyed(a.world.db)
    decreases Hops(w.db, at, id), 0
  {
    if id == "" then
      Answer(w, Resp(false, StatusFailed, "connectionID is required"), Some("connectionID is required"), [at])
    else if id in w.hubs[at] then
      var (w1, result) := WorldSend(w, at, id, msg);
      if result.Accepted? then Answer(w1, Resp(true, StatusSuccess, ""), None, [at])
      else Answer(w1, Resp(false, StatusFailed, SendText(result)), Some(SendText(result)), [at])
    else
      var (db1, got) := S.GetMeta(w.db, id);
      S.GetOnlyReads(w.db, id);
      var w1 := w.(db := db1);
      match got
      case Err(e) =>
        Answer(w1, Resp(false, StaleCleaned, "connection not found"),
               Some("connection " + id + " not found: " + ErrorText(e)), [at])
      case Ok(meta) =>
        if meta.gatewayAddr == at then
          var db2 := S.Cleanup(db1, meta.userID, id).0;
          S.CleanupFacts(db1, meta.userID, id);
          Answer(w1.(db := db2), Resp(false, StaleCleaned, "local connection is stale"), None, [at])
        else
          assert meta.connectionID == id;
          var a := PushRemote(w1, meta.gatewayAddr, meta.connectionID, msg);
          a.(visited := [at] + a.visited)
  }

  /** The call to the gateway at `addr`: an error of its handler loses the response. */
  function PushRemote(w: World, addr: string, id: string, msg: Message): (a: Answer)
    requires Keyed(w.db)
    ensures a.world.hubs.Keys == w.hubs.Keys && Keyed(a.world.db)
    decreases Hops(w.db, addr, id), 1
  {
    if addr !in w.hubs then Answer(w, Resp(false, StatusFailed, CALL_FAILED), Some(CALL_FAILED), []) else
    var w1 := ConsumeLink(w);
    if NextLink(w).Unreachable? then Answer(w1, Resp(false, StatusFailed, CALL_FAILED), Some(CALL_FAILED), []) else
    var a := RouteConnection(w1, addr, id, msg);
    if a.err.Some? then a.(resp := Resp(false, StatusFailed, a.err.value))
    else if NextLink(w).ReplyLost? then a.(resp := Resp(false, StatusFailed, CALL_FAILED), err := Some(CALL_FAILED))
    else if NextLink(w).EmptyReply? then a.(resp := Resp(false, StatusFailed, INVALID_REPLY))
    else a
  }

  // ----- pushing to a user -----

  function CleanupRoute(w: World, meta: ConnectionMeta): World {
    w.(db := S.Cleanup(w.db, meta.userID, meta.connectionID).0)
  }

  function RouteLocal(w: World, at: string, meta: ConnectionMeta, msg: Message, s: Summary): (World, Summary)
    requires at in w.hubs
  {
    if meta.connectionID !in w.hubs[at] then (CleanupRoute(w, meta), s.AddStale()) else
    var (w1, result) := WorldSend(w, at, meta.connectionID, msg);
    (w1, if result.Accepted? then s.AddSuccess() else s.AddFail(SendText(result)))
  }

  /** What the gateway that pushes to the user makes of any remote answer. */
  function FoldAnswer(a: Answer, meta: ConnectionMeta, s: Summary): (World, Summary) {
    if a.err.Some? then (a.world, s.AddFail(a.err.value)) else
    match a.resp.status
    case StatusSuccess => (a.world, s.AddSuccess())
    case StaleCleaned => (CleanupRoute(a.world, meta), s.AddStale())
    case NoopOffline => (a.world, s.AddNoop())
    case _ => (a.world, s.AddFail(a.resp.error))
  }

  function RouteRemote(w: World, meta: ConnectionMeta, msg: Message, s: Summary): (World, Summary)
    requires Keyed(w.db)
  {
    FoldAnswer(PushRemote(w, meta.gatewayAddr, meta.connectionID, msg), meta, s)
  }

  function RouteMeta(w: World, at: string, meta: ConnectionMeta, msg: Message, s: Summary): (World, Summary)
    requires at in w.hubs && Keyed(w.db)
  {
    if meta.connectionID == "" then (w, s)
    else if meta.gatewayAddr == at then RouteLocal(w, at, meta, msg, s)
    else RouteRemote(w, meta, msg, s)
  }

  lemma CleanupStaysKeyed(db: Db, user: string, id: string)
    requires Keyed(db)
    ensures Keyed(S.Cleanup(db, user, id).0)
  {
    S.CleanupFacts(db, user, id);
  }

  lemma RouteMetaStays(w: World, at: string, meta: ConnectionMeta, msg: Message, s: Summary)
    requires at in w.hubs && Keyed(w.db)
    ensures var w' := RouteMeta(w, at, meta, msg, s).0; w'.hubs.Keys == w.hubs.Keys && Keyed(w'.db)
  {
    CleanupStaysKeyed(w.db, meta.userID, meta.connectionID);
    if meta.gatewayAddr != at {
      var w1 := PushRemote(w, meta.gatewayAddr, meta.connectionID, msg).world;
      CleanupStaysKeyed(w1.db, meta.userID, meta.connectionID);
    }
  }

  function RouteAll(w: World, at: string, metas: seq<ConnectionMeta>, msg: Message): (r: (World, Summary))
    requires at in w.hubs && Keyed(w.db)
    ensures r.0.hubs.Keys == w.hubs.Keys && Keyed(r.0.db)
  {
    if metas == [] then (w, EMPTY_SUMMARY) else
    var (w1, s) := RouteAll(w, at, metas[..|metas| - 1], msg);
    RouteMetaStays(w1, at, metas[|metas| - 1], msg, s);
    RouteMeta(w1, at, metas[|metas| - 1], msg, s)
  }

  lemma ListStaysKeyed(db: Db, user: string, ids: seq<string>)
    requires Keyed(db)
    ensures var db' := S.ListByUser(db, user, ids).0; Keyed(db') && db'.facts == db.facts && db'.now == db.now
  {
    S.ListKeepsFacts(db, user, ids);
  }

  /** `ids` is the order in which Redis lists the user's set. */
  function RouteUser(w: World, at: string, user: string, ids: seq<string>, msg: Message): (World, PushResult)
    requires at in w.hubs && Keyed(w.db)
  {
    if user == "" then (w, PushResult(user, false, StatusFailed, 0, "userID is empty")) else
    var (db1, r) := S.ListByUser(w.db, user, ids);
    var w1 := w.(db := db1);
    match r
    case Err(e) =>
      if e.NoLiveConnections? then (w1, PushResult(user, true, NoopOffline, 0, ""))
      else (w1, PushResult(user, false, StatusFailed, 0, ErrorText(e)))
    case Ok(metas) =>
      ListStaysKeyed(w.db, user, ids);
      var (w2, s) := RouteAll(w1, at, metas, msg);
      (w2, s.ToPushResult(user))
  }
}
