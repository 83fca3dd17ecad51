/** Whole runs of a fleet of gateways over one Redis that does not fail: clients
    connect, show activity and leave, heartbeat sweeps close idle connections, and
    pushes are routed, in any order and at any time, as long as each gateway sweeps
    at least once per heartbeat interval. */
module FleetRuns {
  import opened RouteModel
  import opened Redis
  import opened FrontierModel
  import S = RouteSpec
  import opened RouteReads
  import opened RouterSpec

  datatype GatewayConf = GatewayConf(store: S.StoreConf, timeout: Duration, interval: Duration)

  const DEFAULT_INTERVAL: Duration := 30 * NANOS_PER_SECOND
  const DEFAULT_TIMEOUT: Duration := 90 * NANOS_PER_SECOND
  const MIN_ROUTE_TTL: Duration := 60 * NANOS_PER_SECOND

  /** NewHub's choice: a route must outlive the longest an idle connection can stay, and no
      route lives for less than a minute. */
  function RouteTtl(timeout: Duration, interval: Duration): (ttl: Duration)
    ensures ttl >= timeout + interval && ttl >= 60_000_000_000
    ensures ttl == timeout + interval || ttl == 60_000_000_000
  {
    if timeout + interval < MIN_ROUTE_TTL then MIN_ROUTE_TTL else timeout + interval
  }

  /** A gateway's settings from its configuration; non-positive values mean 90 and 30
      seconds. */
  function NewGateway(addr: string, timeout: int, interval: int): (conf: GatewayConf)
    ensures conf.timeout == if timeout > 0 then timeout else 90_000_000_000
    ensures conf.interval == if interval > 0 then interval else 30_000_000_000
    ensures conf.store.ttl >= conf.timeout + conf.interval && conf.store.ttl >= 60_000_000_000
    ensures conf.store.ttl == conf.timeout + conf.interval || conf.store.ttl == 60_000_000_000
    ensures conf.store.gatewayAddr == conf.store.gatewayID == addr
  {
    var t: Duration := if timeout > 0 then timeout else DEFAULT_TIMEOUT;
    var i: Duration := if interval > 0 then interval else DEFAULT_INTERVAL;
    GatewayConf(S.NewConf(addr, RouteTtl(t, i)), t, i)
  }

  /** `swept` is the time of each gateway's last sweep. */
  datatype Fleet = Fleet(world: World, confs: map<string, GatewayConf>, swept: map<string, int>)

  datatype Event =
    | Tick(elapsed: nat)
    | Connect(g: string, id: string, user: string, born: int, meta: ConnectionMeta)
    | Activity(g: string, id: string)
    | LateRefresh(g: string, user: string, id: string)
    | Sweep(g: string)
    | Close(g: string, id: string)
    | Unregister(g: string, id: string)
    | Pump(g: string, id: string)
    | PushUser(g: string, user: string, ids: seq<string>, msg: Message)
    | PushConnection(g: string, id: string, msg: Message)
    | Broadcast(g: string, msg: Message)
    | RepairIndex(user: string, ids: seq<string>)

  ghost predicate Homeless(hubs: map<string, Hub>, id: string) { forall h :: h in hubs ==> id !in hubs[h] }

  function Put(w: World, g: string, id: string, c: ConnState): World
    requires g in w.hubs
  {
    w.(hubs := w.hubs[g := w.hubs[g][id := c]])
  }

  /** The record a hub writes for a new connection. */
  function HubMeta(g: string, id: string, user: string, born: int, meta: ConnectionMeta): ConnectionMeta {
    meta.(userID := user, connectionID := id, gatewayID := g, gatewayAddr := g,
          loginAt := Unix(born), lastActiveAt := Unix(born))
  }

  ghost predicate Enabled(f: Fleet, e: Event) {
    var w := f.world;
    match e
    case Tick(elapsed) =>
      forall g :: g in f.confs && g in f.swept ==> w.db.now + elapsed <= f.swept[g] + f.confs[g].interval
    case Connect(g, id, user, born, _) =>
      && g in w.hubs && !Blank(id) && born <= w.db.now
      && id !in w.db.facts && Homeless(w.hubs, id)
    case Activity(g, id) => g in w.hubs && id in w.hubs[g]
    case LateRefresh(g, _, id) => g in w.hubs && forall h :: h in w.hubs && id in w.hubs[h] ==> h == g
    case Sweep(g) => g in w.hubs
    case Close(g, id) => g in w.hubs && id in w.hubs[g]
    case Unregister(g, id) => g in w.hubs && id in w.hubs[g] && w.hubs[g][id].closed
    case Pump(g, id) => g in w.hubs && id in w.hubs[g] && w.hubs[g][id].queue != []
    case PushUser(g, user, ids, _) => g in w.hubs && Enumerates(ids, Members(w.db, user))
    case PushConnection(g, _, _) => g in w.hubs
    case Broadcast(g, _) => g in w.hubs
    case RepairIndex(user, ids) => Enumerates(ids, Members(w.db, user))
  }

  /** One sweep: connections idle for `timeout` are closed. */
  function SweepHub(hub: Hub, now: int, timeout: int): Hub {
    map c | c in hub :: if Alive(hub[c], now, timeout) then hub[c] else hub[c].(closed := true)
  }

  // ----- what a hub does to its connections and the store -----

  function Joined(conf: S.StoreConf, hub: Hub, db: Db, id: string, c: ConnState, meta: ConnectionMeta): (Hub, Db) {
    (hub[id := c], if c.userID == "" then db else S.Register(conf, db, meta).0)
  }

  /** Activity: the connection is touched and its route refreshed. */
  function Touched(conf: S.StoreConf, hub: Hub, db: Db, id: string, now: int): (Hub, Db)
    requires id in hub
  {
    (hub[id := hub[id].(lastActive := now)],
     if hub[id].userID == "" then db else S.Refresh(conf, db, hub[id].userID, id).0)
  }

  function Departed(hub: Hub, db: Db, id: string): (Hub, Db) {
    if id !in hub then (hub, db)
    else (hub - {id}, if hub[id].userID == "" then db else S.Cleanup(db, hub[id].userID, id).0)
  }

  /** The world after gateway `g` took a hub-and-store step. */
  function At(w: World, g: string, step: (Hub, Db)): World {
    w.(hubs := w.hubs[g := step.0], db := step.1)
  }

  ghost predicate Shape(f: Fleet) {
    && f.world.hubs.Keys == f.confs.Keys == f.swept.Keys
    && (forall g :: g in f.confs ==> g != "" && f.confs[g].store.gatewayAddr == g)
    && f.world.net == [] && Keyed(f.world.db)
  }

  ghost function Step(f: Fleet, e: Event): Fleet
    requires Shape(f) && Enabled(f, e)
  {
    var w := f.world;
    match e
    case Tick(elapsed) => f.(world := w.(db := Redis.Tick(w.db, elapsed)))
    case Connect(g, id, user, born, meta) =>
      f.(world := At(w, g, Joined(f.confs[g].store, w.hubs[g], w.db, id, ConnState(user, [], false, born),
                                  HubMeta(g, id, user, born, meta))))
    case Activity(g, id) => f.(world := At(w, g, Touched(f.confs[g].store, w.hubs[g], w.db, id, w.db.now)))
    case LateRefresh(g, user, id) =>
      f.(world := w.(db := S.Refresh(f.confs[g].store, w.db, user, id).0))
    case Sweep(g) =>
      f.(world := w.(hubs := w.hubs[g := SweepHub(w.hubs[g], w.db.now, f.confs[g].timeout)]),
         swept := f.swept[g := w.db.now])
    case Close(g, id) => f.(world := Put(w, g, id, w.hubs[g][id].(closed := true)))
    case Unregister(g, id) => f.(world := At(w, g, Departed(w.hubs[g], w.db, id)))
    case Pump(g, id) => f.(world := Put(w, g, id, w.hubs[g][id].(queue := w.hubs[g][id].queue[1..])))
    case PushUser(g, user, ids, msg) => f.(world := RouteUser(w, g, user, ids, msg).0)
    case PushConnection(g, id, msg) => f.(world := RouteConnection(w, g, id, msg).world)
    case Broadcast(g, msg) => f.(world := WorldBroadcast(w, g, msg))
    case RepairIndex(user, ids) => f.(world := w.(db := S.CleanupStale(w.db, user, ids).0))
  }
}
