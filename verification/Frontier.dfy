/** The hub and its connections as objects (src/frontier/hub.go,
    src/frontier/connection.go), each method against the value-level functions of
    FrontierModel, HubSpec, RouterSpec and FleetRuns. Methods run under the locks the
    source takes; interleavings are the subject of SendProtocol. */
module Frontier {
  import opened RouteModel
  import opened Redis
  import opened FrontierModel
  import H = HubSpec
  import RouteSpec
  import RouteFailures
  import opened RouteStore
  import RouterSpec
  import FleetRuns

  class Connection {
    const id: string
    const userID: string
    const hub: Hub
    const loginAt: int
    var send: seq<Message>
    var sendClosed: bool
    var closeOnce: bool
    var closed: bool
    var lastActive: int
    var metadata: map<string, string>

    ghost predicate Valid()
      reads this
    {
      |send| <= SEND_CAPACITY && closed == sendClosed == closeOnce
    }

    function State(): ConnState
      reads this
    {
      ConnState(userID, send, closed, lastActive)
    }

    constructor (id: string, userID: string, hub: Hub, now: int)
      ensures Valid() && this.id == id && this.userID == userID && this.hub == hub && loginAt == now
      ensures State() == ConnState(userID, [], false, now) && metadata == map[]
    {
      this.id, this.userID, this.hub := id, userID, hub;
      send, sendClosed, closeOnce, closed := [], false, false, false;
      lastActive, loginAt, metadata := now, now, map[];
    }

    /** Never blocks; a full or closed queue is reported. */
    method SendMessage(msg: Message) returns (r: SendResult)
      requires Valid()
      modifies this`send
      ensures Valid() && State() == Send(old(State()), msg) && r == Verdict(old(State()))
    {
      if closed { return ConnectionClosed; }
      assert !sendClosed;
      if |send| < SEND_CAPACITY {
        send := send + [msg];
        return Accepted;
      }
      return SendBufferFull;
    }

    /** Closes the queue once and tells the hub once. */
    method Close()
      requires Valid()
      modifies this`closeOnce, this`closed, this`sendClosed, hub`unregister
      ensures Valid() && State() == old(State()).(closed := true)
      ensures hub.unregister == old(hub.unregister) + if old(closed) then [] else [this]
    {
      if closeOnce { return; }
      closeOnce := true;
      closed := true;
      assert !sendClosed;
      sendClosed := true;
      hub.unregister := hub.unregister + [this];
    }

    /** The write pump takes the next message. */
    method Receive() returns (msg: Message)
      requires Valid() && send != []
      modifies this`send
      ensures Valid() && msg == old(send)[0] && State() == old(State()).(queue := old(send)[1..])
    {
      msg, send := send[0], send[1..];
    }

    method UpdateLastActive(now: int)
      modifies this`lastActive
      ensures State() == old(State()).(lastActive := now)
    {
      lastActive := now;
    }

    method SetMetadata(key: string, value: string)
      modifies this`metadata
      ensures metadata == old(metadata)[key := value]
    {
      metadata := metadata[key := value];
    }

    function MetadataString(key: string): string
      reads this
    {
      if key in metadata then metadata[key] else ""
    }
  }

  /** The map lists distinct connections under their own IDs. */
  ghost predicate Keyed(m: map<string, Connection>, hub: Hub) {
    forall id :: id in m ==> m[id].id == id && m[id].hub == hub
  }

  ghost predicate DistinctConnections(conns: seq<Connection>) {
    forall i, j :: 0 <= i < j < |conns| ==> conns[i] != conns[j]
  }

  ghost function StatesOf(m: map<string, Connection>): RouterSpec.Hub
    reads m.Values
  {
    map id | id in m :: m[id].State()
  }

  lemma StatesAfter(m: map<string, Connection>, conn: Connection, id: string)
    ensures StatesOf(m[conn.id := conn]) == StatesOf(m)[conn.id := conn.State()]
    ensures StatesOf(m - {id}) == StatesOf(m) - {id}
  {
  }

  /** A snapshot of the map's values, in some order. */
  method Snapshot(m: map<string, Connection>, ghost hub: Hub) returns (conns: seq<Connection>)
    requires Keyed(m, hub)
    ensures DistinctConnections(conns) && |conns| == |m|
    ensures forall c :: c in conns <==> c.id in m && m[c.id] == c
  {
    conns := [];
    var todo := m.Keys;
    while todo != {}
      invariant todo <= m.Keys
      invariant forall c :: c in conns <==> c.id in m && c.id !in todo && m[c.id] == c
      invariant DistinctConnections(conns)
      invariant |conns| + |todo| == |m.Keys|
      decreases todo
    {
      var id :| id in todo;
      conns, todo := conns + [m[id]], todo - {id};
    }
    assert |m| == |m.Keys|;
  }

  /** Offers the message to each connection of a snapshot; errors are skipped. */
  method SendEach(conns: seq<Connection>, msg: Message)
    requires DistinctConnections(conns)
    requires forall c :: c in conns ==> c.Valid()
    modifies (set c | c in conns)`send
    ensures forall c :: c in conns ==> c.Valid() && c.State() == Send(old(c.State()), msg)
  {
    for i := 0 to |conns|
      invariant forall c :: c in conns ==> c.Valid()
      invariant forall j :: 0 <= j < i ==> conns[j].State() == Send(old(conns[j].State()), msg)
      invariant forall j :: i <= j < |conns| ==> conns[j].State() == old(conns[j].State())
    {
      assert conns[i] in conns;
      var _ := conns[i].SendMessage(msg);
    }
  }

  // ----- the two maps, by ID and by user -----

  type Index = map<string, map<string, Connection>>

  ghost function UsersOf(m: map<string, Connection>): map<string, string> { map id | id in m :: m[id].userID }

  ghost function IDsOf(index: Index): map<string, set<string>> { map user | user in index :: index[user].Keys }

  function ConnsOf(index: Index, user: string): map<string, Connection> {
    if user in index then index[user] else map[]
  }

  function Enter(index: Index, conn: Connection): Index {
    if conn.userID == "" then index else index[conn.userID := ConnsOf(index, conn.userID)[conn.id := conn]]
  }

  function Leave(index: Index, user: string, id: string): Index {
    if user == "" || user !in index then index
    else if index[user] - {id} == map[] then index - {user}
    else index[user := index[user] - {id}]
  }

  lemma EnterMaps(m: map<string, Connection>, index: Index, conn: Connection, total: nat, active: nat)
    ensures H.HubMaps(UsersOf(m[conn.id := conn]), IDsOf(Enter(index, conn)), total + 1, active + 1)
            == H.Register(H.HubMaps(UsersOf(m), IDsOf(index), total, active), conn.id, conn.userID)
  {
    assert UsersOf(m[conn.id := conn]) == UsersOf(m)[conn.id := conn.userID];
    var h := H.HubMaps(UsersOf(m), IDsOf(index), total, active);
    if conn.userID != "" {
      assert ConnsOf(index, conn.userID)[conn.id := conn].Keys == H.UserSet(h, conn.userID) + {conn.id};
      assert IDsOf(Enter(index, conn)) == IDsOf(index)[conn.userID := H.UserSet(h, conn.userID) + {conn.id}];
    }
  }

  lemma LeaveMaps(m: map<string, Connection>, index: Index, id: string)
    requires id in m
    ensures UsersOf(m - {id}) == UsersOf(m) - {id}
    ensures IDsOf(Leave(index, m[id].userID, id)) == H.DropFromUser(IDsOf(index), m[id].userID, id)
  {
    var user := m[id].userID;
    if user != "" && user in index {
      assert (index[user] - {id}).Keys == index[user].Keys - {id};
      assert index[user] - {id} == map[] <==> index[user].Keys - {id} == {};
    }
  }

  /** The index holds the very objects of the connection map. */
  ghost predicate SameObjects(m: map<string, Connection>, index: Index) {
    forall user, id :: user in index && id in index[user] ==> id in m && m[id] == index[user][id]
  }

  ghost predicate KeyedIndex(index: Index, hub: Hub) { forall user :: user in index ==> Keyed(index[user], hub) }

  lemma IndexStaysKeyed(index: Index, hub: Hub, conn: Connection, user: string, id: string)
    requires KeyedIndex(index, hub) && conn.hub == hub
    ensures KeyedIndex(Enter(index, conn), hub) && KeyedIndex(Leave(index, user, id), hub)
  {
  }

  lemma EnterSameObjects(m: map<string, Connection>, index: Index, conn: Connection)
    requires SameObjects(m, index) && conn.id !in m
    ensures SameObjects(m[conn.id := conn], Enter(index, conn))
  {
  }

  /** A linked index lists, under a user, exactly the user's connections. */
  lemma UserEntries(m: map<string, Connection>, index: Index, user: string, total: nat, active: nat)
    requires SameObjects(m, index) && H.Twins(H.HubMaps(UsersOf(m), IDsOf(index), total, active))
    ensures user in index ==> index[user] != map[]
    ensures forall id :: id in ConnsOf(index, user) <==> user != "" && id in m && m[id].userID == user
  {
    var h := H.HubMaps(UsersOf(m), IDsOf(index), total, active);
    assert H.UserSet(h, user) == ConnsOf(index, user).Keys;
    forall id ensures id in ConnsOf(index, user) <==> user != "" && id in m && m[id].userID == user {
      assert id in H.UserSet(h, user) <==> user != "" && id in h.connections && h.connections[id] == user;
    }
    if user in index { assert h.users[user] == index[user].Keys; }
  }

  lemma LeaveSameObjects(m: map<string, Connection>, index: Index, id: string, total: nat, active: nat)
    requires SameObjects(m, index) && id in m
    requires H.Twins(H.HubMaps(UsersOf(m), IDsOf(index), total, active))
    ensures SameObjects(m - {id}, Leave(index, m[id].userID, id))
  {
    forall user | user in index && id in index[user] ensures user == m[id].userID && user != "" {
      UserEntries(m, index, user, total, active);
      assert id in ConnsOf(index, user);
    }
  }

  class Hub {
    const localAddr: string
    const heartbeatInterval: Duration
    const connectionTimeout: Duration
    const routeStore: RedisStore
    var connections: map<string, Connection>
    var userConnections: map<string, map<string, Connection>>
    var unregister: seq<Connection>
    var totalConnections: nat
    var activeConnections: nat
    var messagesSent: nat

    /** Entries sit under their own ID and belong to this hub. */
    ghost predicate Valid()
      reads this, connections.Values
    {
      && Keyed(connections, this)
      && (forall id :: id in connections ==> connections[id].Valid())
      && KeyedIndex(userConnections, this)
    }

    ghost predicate Linked()
      reads this
    {
      SameObjects(connections, userConnections)
    }

    ghost function Maps(): H.HubMaps
      reads this
    {
      H.HubMaps(UsersOf(connections), IDsOf(userConnections), totalConnections, activeConnections)
    }

    /** What the router sees of this hub. */
    ghost function Conns(): RouterSpec.Hub
      reads this, connections.Values
    {
      StatesOf(connections)
    }

    constructor (redis: Cache, localAddr: string, timeout: int, interval: int)
      ensures Valid() && Linked() && Maps() == H.NEW_HUB && unregister == [] && messagesSent == 0
      ensures this.localAddr == localAddr && routeStore.redis == redis
      ensures FleetRuns.GatewayConf(routeStore.conf, connectionTimeout, heartbeatInterval)
              == FleetRuns.NewGateway(localAddr, timeout, interval)
    {
      var heartbeat: Duration := FleetRuns.DEFAULT_INTERVAL;
      var idle: Duration := FleetRuns.DEFAULT_TIMEOUT;
      if interval > 0 { heartbeat := interval; }
      if timeout > 0 { idle := timeout; }
      var routeTTL: Duration := idle + heartbeat;
      if routeTTL < FleetRuns.MIN_ROUTE_TTL { routeTTL := FleetRuns.MIN_ROUTE_TTL; }
      var store := new RedisStore(redis, localAddr, routeTTL);
      this.localAddr, heartbeatInterval, connectionTimeout, routeStore := localAddr, heartbeat, idle, store;
      connections, userConnections, unregister := map[], map[], [];
      totalConnections, activeConnections, messagesSent := 0, 0, 0;
    }

    function ConnectionMetaOf(conn: Connection): ConnectionMeta
      reads conn
    {
      ConnectionMeta(conn.userID, conn.id, conn.MetadataString("deviceID"), localAddr, localAddr,
                     conn.MetadataString("platform"), conn.MetadataString("clientVersion"),
                     Unix(conn.loginAt), Unix(conn.lastActive))
    }

    /** A connection without activity since login gets the record of the fleet's model. */
    lemma FreshMeta(conn: Connection)
      requires conn.lastActive == conn.loginAt
      ensures ConnectionMetaOf(conn) ==
              FleetRuns.HubMeta(localAddr, conn.id, conn.userID, conn.loginAt, ConnectionMetaOf(conn))
    {
    }

    /** What the hub registers for a connection is what every gateway reads: each field of the
        connection under its own name, and this gateway as its place. */
    lemma RegistrationReadsBack(conn: Connection)
      requires RouteSpec.Register(routeStore.conf, routeStore.redis.db, ConnectionMetaOf(conn)).1 == None
      requires localAddr != ""
      ensures var db' := RouteSpec.Register(routeStore.conf, routeStore.redis.db, ConnectionMetaOf(conn)).0;
              var seen := RouteSpec.Seen(db', conn.id);
              && seen.Some?
              && seen.value.userID == conn.userID && seen.value.connectionID == conn.id
              && seen.value.gatewayAddr == seen.value.gatewayID == localAddr
              && seen.value.deviceID == (if "deviceID" in conn.metadata then conn.metadata["deviceID"] else "")
              && seen.value.platform == (if "platform" in conn.metadata then conn.metadata["platform"] else "")
              && seen.value.clientVersion
                 == (if "clientVersion" in conn.metadata then conn.metadata["clientVersion"] else "")
              && (Unix(conn.loginAt) != 0 ==> seen.value.loginAt == Unix(conn.loginAt))
              && seen.value.lastActiveAt == Unix(routeStore.redis.db.now)
    {
      RouteFailures.RegisterStoresRecord(routeStore.conf, routeStore.redis.db, ConnectionMetaOf(conn));
    }

    /** Registration under the hub's lock: both maps and the counters. */
    method AddConnection(conn: Connection)
      requires Valid() && conn.Valid() && conn.hub == this
      modifies this`connections, this`userConnections, this`totalConnections, this`activeConnections
      ensures Valid()
      ensures connections == old(connections)[conn.id := conn]
      ensures Maps() == H.Register(old(Maps()), conn.id, conn.userID)
      ensures old(Linked()) && conn.id !in old(connections) ==> Linked()
    {
      IndexStaysKeyed(userConnections, this, conn, "", "");
      EnterMaps(connections, userConnections, conn, totalConnections, activeConnections);
      if Linked() && conn.id !in connections { EnterSameObjects(connections, userConnections, conn); }
      connections := connections[conn.id := conn];
      AddToIndex(conn);
      totalConnections := totalConnections + 1;
      activeConnections := activeConnections + 1;
    }

    /** Enters the connection, then writes its route; a failing Redis does not matter
        to the hub. */
    method RegisterConnection(conn: Connection)
      requires Valid() && conn.Valid() && conn.hub == this
      modifies this`connections, this`userConnections, this`totalConnections, this`activeConnections, routeStore.redis
      ensures Valid()
      ensures connections == old(connections)[conn.id := conn]
      ensures Maps() == H.Register(old(Maps()), conn.id, conn.userID)
      ensures old(Linked()) && conn.id !in old(connections) ==> Linked()
      ensures var (hub, db) := FleetRuns.Joined(routeStore.conf, old(Conns()), old(routeStore.redis.db), conn.id,
                                                conn.State(), ConnectionMetaOf(conn));
              Conns() == hub && routeStore.redis.db == db
    {
      ghost var (conns, meta) := (Conns(), ConnectionMetaOf(conn));
      StatesAfter(connections, conn, "");
      AddConnection(conn);
      assert Conns() == conns[conn.id := conn.State()] && ConnectionMetaOf(conn) == meta;
      RegisterPresence(conn);
    }

    method RegisterPresence(conn: Connection)
      requires Valid()
      modifies routeStore.redis
      ensures Valid() && Conns() == old(Conns())
      ensures routeStore.redis.db ==
              if conn.userID == "" then old(routeStore.redis.db)
              else RouteSpec.Register(routeStore.conf, old(routeStore.redis.db), ConnectionMetaOf(conn)).0
    {
      if conn.userID != "" {
        var _ := routeStore.Register(ConnectionMetaOf(conn));
      }
    }

    method AddToIndex(conn: Connection)
      modifies this`userConnections
      ensures userConnections == Enter(old(userConnections), conn)
    {
      if conn.userID != "" {
        if conn.userID !in userConnections {
          userConnections := userConnections[conn.userID := map[]];
        }
        userConnections := userConnections[conn.userID := userConnections[conn.userID][conn.id := conn]];
        assert userConnections == Enter(old(userConnections), conn);
      }
    }

    method RemoveFromIndex(userID: string, id: string)
      modifies this`userConnections
      ensures userConnections == Leave(old(userConnections), userID, id)
    {
      if userID != "" && userID in userConnections {
        var rest := userConnections[userID] - {id};
        assert |rest| == 0 <==> rest == map[];
        if |rest| == 0 {
          userConnections := userConnections - {userID};
        } else {
          userConnections := userConnections[userID := rest];
        }
      }
    }

    /** Removal under the hub's lock: both maps and the counter. */
    method DropConnection(id: string) returns (userID: string)
      requires Valid() && id in connections
      modifies this`connections, this`userConnections, this`activeConnections
      ensures Valid() && userID == old(connections)[id].userID
      ensures connections == old(connections) - {id}
      ensures Maps() == H.Unregister(old(Maps()), id)
      ensures old(Linked()) && H.Twins(old(Maps())) ==> Linked()
    {
      userID := connections[id].userID;
      IndexStaysKeyed(userConnections, this, connections[id], userID, id);
      LeaveMaps(connections, userConnections, id);
      if Linked() && H.Twins(Maps()) {
        LeaveSameObjects(connections, userConnections, id, totalConnections, activeConnections);
      }
      connections := connections - {id};
      RemoveFromIndex(userID, id);
      if activeConnections > 0 {
        activeConnections := activeConnections - 1;
      }
    }

    /** Removes whatever connection is registered under the ID, then its route; unknown IDs
        are ignored. */
    method UnregisterConnection(conn: Connection)
      requires Valid()
      modifies this`connections, this`userConnections, this`activeConnections, routeStore.redis
      ensures Valid()
      ensures connections == old(connections) - {conn.id}
      ensures Maps() == H.Unregister(old(Maps()), conn.id)
      ensures old(Linked()) && H.Twins(old(Maps())) ==> Linked()
      ensures var (hub, db) := FleetRuns.Departed(old(Conns()), old(routeStore.redis.db), conn.id);
              Conns() == hub && routeStore.redis.db == db
    {
      if conn.id !in connections {
        assert connections - {conn.id} == connections;
        return;
      }
      StatesAfter(connections, conn, conn.id);
      var userID := DropConnection(conn.id);
      UnregisterPresence(userID, conn.id);
    }

    method UnregisterPresence(userID: string, id: string)
      requires Valid()
      modifies routeStore.redis
      ensures Valid() && Conns() == old(Conns())
      ensures routeStore.redis.db ==
              if userID == "" then old(routeStore.redis.db)
              else RouteSpec.Cleanup(old(routeStore.redis.db), userID, id).0
    {
      if userID != "" && id != "" {
        var _ := routeStore.Unregister(userID, id);
      }
    }

    /** Renews the connection's route; a failing Redis or a missing route does not matter. */
    method RefreshConnectionPresence(conn: Connection)
      modifies routeStore.redis
      ensures routeStore.redis.db ==
              if conn.userID == "" then old(routeStore.redis.db)
              else RouteSpec.Refresh(routeStore.conf, old(routeStore.redis.db), conn.userID, conn.id).0
    {
      if conn.userID == "" || conn.id == "" { return; }
      var _ := routeStore.Refresh(conn.userID, conn.id);
    }

    /** What the read pump does for each frame of a registered connection. */
    method NoteActivity(conn: Connection, now: int)
      requires Valid() && conn.id in connections && connections[conn.id] == conn
      modifies conn`lastActive, routeStore.redis
      ensures Valid()
      ensures var (hub, db) := FleetRuns.Touched(routeStore.conf, old(Conns()), old(routeStore.redis.db), conn.id, now);
              Conns() == hub && routeStore.redis.db == db
    {
      ghost var conns := Conns();
      conn.UpdateLastActive(now);
      assert forall id :: id in connections && id != conn.id ==> connections[id] != conn;
      assert Conns() == conns[conn.id := conns[conn.id].(lastActive := now)];
      RefreshConnectionPresence(conn);
    }

    function GetConnection(id: string): Connection?
      reads this
    {
      if id in connections then connections[id] else null
    }

    /** The user's connections, each once. */
    method GetUserConnections(user: string) returns (conns: seq<Connection>)
      requires KeyedIndex(userConnections, this)
      ensures DistinctConnections(conns)
      ensures |conns| == |ConnsOf(userConnections, user)|
      ensures forall c :: c in conns <==>
                c.id in ConnsOf(userConnections, user) && ConnsOf(userConnections, user)[c.id] == c
    {
      if user !in userConnections { return []; }
      conns := Snapshot(userConnections[user], this);
    }

    method SendToConnection(id: string, msg: Message) returns (r: SendResult)
      requires Valid()
      modifies this`messagesSent, connections.Values`send
      ensures Valid()
      ensures (Conns(), r) == RouterSpec.HubSend(old(Conns()), id, msg)
      ensures forall c :: c in connections.Values && c.id != id ==> c.send == old(c.send)
      ensures messagesSent == old(messagesSent) + if id in connections then 1 else 0
    {
      var conn := GetConnection(id);
      if conn == null { return ConnectionClosed; }
      messagesSent := messagesSent + 1;
      assert forall x :: x in connections && x != id ==> connections[x] != conn;
      r := conn.SendMessage(msg);
      assert Conns() == old(Conns())[id := Send(old(Conns())[id], msg)];
    }

    /** Counts the messages, then offers one to each connection of a snapshot. */
    method SendAll(conns: seq<Connection>, msg: Message)
      requires Valid() && DistinctConnections(conns)
      requires forall c :: c in conns ==> c.id in connections && connections[c.id] == c
      modifies this`messagesSent, connections.Values`send
      ensures Valid() && messagesSent == old(messagesSent) + |conns|
      ensures forall id :: id in connections ==>
                connections[id].State() ==
                if connections[id] in conns then Send(old(connections[id].State()), msg)
                else old(connections[id].State())
    {
      messagesSent := messagesSent + |conns|;
      forall c | c in conns ensures c in connections.Values && c.Valid() {
        assert connections[c.id] == c;
      }
      SendEach(conns, msg);
    }

    /** One copy to every connection of the hub. */
    method Broadcast(msg: Message)
      requires Valid()
      modifies this`messagesSent, connections.Values`send
      ensures Valid()
      ensures Conns() == map id | id in old(Conns()) :: Send(old(Conns())[id], msg)
      ensures messagesSent == old(messagesSent) + |connections|
    {
      var conns := Snapshot(connections, this);
      SendAll(conns, msg);
      assert forall id :: id in connections ==> connections[id] in conns;
    }

    /** One copy to every connection indexed under the user, whatever the other map says. */
    method SendToIndexed(user: string, msg: Message) returns (ok: bool)
      requires KeyedIndex(userConnections, this)
      requires forall c :: c in ConnsOf(userConnections, user).Values ==> c.Valid()
      modifies this`messagesSent, ConnsOf(userConnections, user).Values`send
      ensures forall c :: c in ConnsOf(userConnections, user).Values ==>
                c.Valid() && c.State() == Send(old(c.State()), msg)
      ensures ok <==> ConnsOf(userConnections, user) != map[]
      ensures messagesSent == old(messagesSent) + |ConnsOf(userConnections, user)|
    {
      var conns := GetUserConnections(user);
      forall c | c in conns ensures c in ConnsOf(userConnections, user).Values && c.Valid() {
        assert ConnsOf(userConnections, user)[c.id] == c;
      }
      assert forall id :: id in ConnsOf(userConnections, user) ==> ConnsOf(userConnections, user)[id] in conns;
      if |conns| == 0 { return false; }
      assert conns[0] in conns;
      messagesSent := messagesSent + |conns|;
      SendEach(conns, msg);
      return true;
    }

    /** The same; when the two maps agree it is one copy to every connection of the user
        and none to others. */
    method SendToUser(user: string, msg: Message) returns (ok: bool)
      requires KeyedIndex(userConnections, this)
      requires forall c :: c in ConnsOf(userConnections, user).Values ==> c.Valid()
      modifies this`messagesSent, ConnsOf(userConnections, user).Values`send
      ensures forall c :: c in ConnsOf(userConnections, user).Values ==>
                c.Valid() && c.State() == Send(old(c.State()), msg)
      ensures ok <==> ConnsOf(userConnections, user) != map[]
      ensures messagesSent == old(messagesSent) + |ConnsOf(userConnections, user)|
      ensures old(Linked() && H.Twins(Maps())) ==>
                && (ok <==> user in userConnections)
                && forall id :: id in connections ==>
                  connections[id].State() ==
                  if user != "" && connections[id].userID == user
                  then Send(old(connections[id].State()), msg) else old(connections[id].State())
    {
      if Linked() && H.Twins(Maps()) {
        UserEntries(connections, userConnections, user, totalConnections, activeConnections);
      }
      ok := SendToIndexed(user, msg);
    }

    /** One tick of the heartbeat: snapshot the idle connections, then close them. */
    method CheckHeartbeat(now: int)
      requires Valid()
      modifies this`unregister, connections.Values`closed, connections.Values`sendClosed, connections.Values`closeOnce
      ensures Valid()
      ensures Conns() == FleetRuns.SweepHub(old(Conns()), now, connectionTimeout)
      ensures old(unregister) <= unregister
      ensures forall c :: c in unregister[|old(unregister)|..] <==>
                c in connections.Values && !Alive(old(c.State()), now, connectionTimeout) && !old(c.closed)
    {
      var conns: seq<Connection> := [];
      var todo := connections.Keys;
      while todo != {}
        invariant todo <= connections.Keys
        invariant DistinctConnections(conns)
        invariant forall c :: c in conns <==>
                    && c.id in connections && c.id !in todo && connections[c.id] == c
                    && !Alive(c.State(), now, connectionTimeout)
        decreases todo
      {
        var id :| id in todo;
        if !Alive(connections[id].State(), now, connectionTimeout) { conns := conns + [connections[id]]; }
        todo := todo - {id};
      }
      CloseAll(conns);
      assert forall id :: id in connections ==>
          (connections[id] in conns <==> !Alive(old(connections[id].State()), now, connectionTimeout));
    }

    method CloseAll(conns: seq<Connection>)
      requires Valid() && DistinctConnections(conns)
      requires forall c :: c in conns ==> c.id in connections && connections[c.id] == c
      modifies this`unregister, connections.Values`closed, connections.Values`sendClosed, connections.Values`closeOnce
      ensures Valid() && old(unregister) <= unregister
      ensures forall id :: id in connections ==>
                connections[id].State() ==
                if connections[id] in conns then old(connections[id].State()).(closed := true)
                else old(connections[id].State())
      ensures forall c :: c in unregister[|old(unregister)|..] <==> c in conns && !old(c.closed)
    {
      for i := 0 to |conns|
        invariant forall id :: id in connections ==> connections[id].Valid()
        invariant forall id :: id in connections ==>
                    connections[id].State() ==
                    if connections[id] in conns[..i] then old(connections[id].State()).(closed := true)
                    else old(connections[id].State())
        invariant old(unregister) <= unregister
        invariant forall c :: c in unregister[|old(unregister)|..] <==> c in conns[..i] && !old(c.closed)
      {
        assert conns[i] in conns && connections[conns[i].id] == conns[i];
        assert conns[i] !in conns[..i];
        assert conns[..i + 1] == conns[..i] + [conns[i]];
        ghost var before := unregister;
        conns[i].Close();
        assert unregister[|old(unregister)|..]
            == before[|old(unregister)|..] + if old(conns[i].closed) then [] else [conns[i]];
      }
      assert conns[..|conns|] == conns;
    }
  }
}
