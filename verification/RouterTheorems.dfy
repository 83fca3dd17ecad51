/** The promises of a push to a user, from the order-free form of its loop. */
module RouterTheorems {
  import opened RouteModel
  import opened Redis
  import opened FrontierModel
  import S = RouteSpec
  import opened RouteReads
  import R = RouteRuns
  import opened RouterSpec
  import opened RouterDelivery

  /** The fleet after a push to `user`: the index repaired, one copy offered to each
      listed place, stale routes dropped. */
  function PushedToUser(w: World, user: string, metas: seq<ConnectionMeta>, msg: Message): World {
    Pushed(w.(db := Repaired(w.db, user)), user, metas, msg)
  }

  /** Without failures RouteUser is that update, for the routes in the user's set. */
  lemma RouteUserQuiet(w: World, at: string, user: string, ids: seq<string>, msg: Message) returns (s: Summary)
    requires Quiet(w) && at in w.hubs && user != "" && Enumerates(ids, Members(w.db, user))
    ensures var metas := LiveMetas(w.db, user, ids);
            && Listed(w, user, metas) && Tallies(w.hubs, metas, s)
            && RouteUser(w, at, user, ids, msg) == (PushedToUser(w, user, metas, msg), s.ToPushResult(user))
  {
    ListQuiet(w.db, user, ids);
    LiveMetasExact(w.db, user, ids);
    var metas := LiveMetas(w.db, user, ids);
    var w1 := w.(db := Repaired(w.db, user));
    assert forall id :: S.Seen(w1.db, id) == S.Seen(w.db, id);
    if metas == [] {
      NothingPushed(w1, user, msg);
      s := EMPTY_SUMMARY;
    } else {
      s := RouteAll(w1, at, metas, msg).1;
      RouteAllQuiet(w1, at, user, metas, msg);
    }
  }

  /** What the push did to the store. */
  lemma PushedStore(w: World, user: string, metas: seq<ConnectionMeta>, msg: Message)
    ensures var db' := PushedToUser(w, user, metas, msg).db;
            && db'.facts == w.db.facts - StaleRoutes(w.hubs, metas)
            && db'.now == w.db.now && db'.script == w.db.script
            && Members(db', user) <= Members(w.db, user)
  {
    var db1 := Repaired(w.db, user);
    var stale := StaleRoutes(w.hubs, metas);
    assert db1.facts - {} == db1.facts;
    RemoveMembersExact(w.db, user, StaleSet(w.db, user), user);
    RemoveMembersExact(db1, user, stale, user);
  }

  // ----- order independence -----

  lemma SameMetasSamePush(w: World, user: string, a: seq<ConnectionMeta>, b: seq<ConnectionMeta>, msg: Message)
    requires forall m :: m in a <==> m in b
    ensures PushedToUser(w, user, a, msg) == PushedToUser(w, user, b, msg)
    ensures forall s :: Tallies(w.hubs, a, s) <==> Tallies(w.hubs, b, s)
  {
    assert Places(a) == Places(b) && StaleRoutes(w.hubs, a) == StaleRoutes(w.hubs, b);
    forall fate: Fate ensures Met(w.hubs, a, fate) == Met(w.hubs, b, fate) {}
  }

  /** Whatever order Redis lists the routes in, and whichever gateway routes the
      push: the same queues, the same store, the same status, success and count. */
  lemma OrderIndependence(w: World, at: string, at': string, user: string, ids: seq<string>, ids': seq<string>,
      msg: Message)
    requires Quiet(w) && at in w.hubs && at' in w.hubs
    requires Enumerates(ids, Members(w.db, user)) && Enumerates(ids', Members(w.db, user))
    ensures var (w1, r1) := RouteUser(w, at, user, ids, msg);
            var (w2, r2) := RouteUser(w, at', user, ids', msg);
            w1 == w2 && r1.(error := r2.error) == r2
  {
    if user != "" {
      var s1 := RouteUserQuiet(w, at, user, ids, msg);
      var s2 := RouteUserQuiet(w, at', user, ids', msg);
      LiveMetasExact(w.db, user, ids);
      LiveMetasExact(w.db, user, ids');
      SameMetasSamePush(w, user, LiveMetas(w.db, user, ids), LiveMetas(w.db, user, ids'), msg);
    }
  }

  // ----- exact delivery -----

  /** One copy of `msg` offered to each connection of `user`, nothing to others. */
  function DeliverToUser(hubs: map<string, Hub>, user: string, msg: Message): map<string, Hub> {
    map g | g in hubs :: map c | c in hubs[g] :: if hubs[g][c].userID == user then Send(hubs[g][c], msg) else hubs[g][c]
  }

  /** The user's connections whose queue is open and not full. */
  function Reachable(hubs: map<string, Hub>, user: string): set<Place> {
    set g, c | g in hubs && c in hubs[g] && hubs[g][c].userID == user && Verdict(hubs[g][c]).Accepted? :: (g, c)
  }

  /** Every open connection of `user` has a readable, indexed route naming its gateway, and
      the routes that name a connection's gateway agree with it on the user. Routes of
      connections that are gone, and closed connections without route, are fine. */
  ghost predicate Agree(w: World, user: string) {
    && (forall g, c :: g in w.hubs && c in w.hubs[g] && w.hubs[g][c].userID == user && !w.hubs[g][c].closed ==>
        !Blank(c) && c in Members(w.db, user) && Owns(w.db, user, c) && S.Seen(w.db, c).value.gatewayAddr == g)
    && (forall g, c ::
        g in w.hubs && c in w.hubs[g] && Owns(w.db, user, c) && S.Seen(w.db, c).value.gatewayAddr == g ==>
        w.hubs[g][c].userID == user)
  }

  /** No owned route of the user's set is missing. */
  ghost predicate ListsOwned(db: Db, user: string, metas: seq<ConnectionMeta>) {
    forall id :: id in Members(db, user) && !Blank(id) && Owns(db, user, id) ==> S.Seen(db, id).value in metas
  }

  lemma PlacesOfUser(w: World, user: string, metas: seq<ConnectionMeta>, g: string, c: string)
    requires Agree(w, user) && Keyed(w.db) && Listed(w, user, metas)
    requires ListsOwned(w.db, user, metas)
    requires g in w.hubs && c in w.hubs[g]
    ensures (g, c) in Places(metas) ==> w.hubs[g][c].userID == user
    ensures w.hubs[g][c].userID == user && !w.hubs[g][c].closed ==> (g, c) in Places(metas)
  {
    if (g, c) in Places(metas) {
      var m :| m in metas && PlaceOf(m) == (g, c);
      assert Owns(w.db, user, c);
    }
    if w.hubs[g][c].userID == user && !w.hubs[g][c].closed {
      SeenCarriesItsKey(w.db, c);
      assert PlaceOf(S.Seen(w.db, c).value) == (g, c);
    }
  }

  /** The listed routes reach exactly the user's open connections. */
  lemma ListedPlaces(w: World, user: string, metas: seq<ConnectionMeta>, msg: Message)
    requires Agree(w, user) && Keyed(w.db) && Listed(w, user, metas)
    requires ListsOwned(w.db, user, metas)
    ensures Deliver(w.hubs, Places(metas), msg) == DeliverToUser(w.hubs, user, msg)
    ensures Met(w.hubs, metas, Delivered) == Reachable(w.hubs, user)
  {
    forall g, c | g in w.hubs && c in w.hubs[g]
      ensures (g, c) in Places(metas) ==> w.hubs[g][c].userID == user
      ensures w.hubs[g][c].userID == user && !w.hubs[g][c].closed ==> (g, c) in Places(metas)
    {
      PlacesOfUser(w, user, metas, g, c);
    }
    var left, right := Deliver(w.hubs, Places(metas), msg), DeliverToUser(w.hubs, user, msg);
    forall g | g in w.hubs ensures left[g] == right[g] {
      assert left[g].Keys == right[g].Keys;
    }
    forall p: Place ensures p in Met(w.hubs, metas, Delivered) <==> p in Reachable(w.hubs, user) {
      if p in Met(w.hubs, metas, Delivered) {
        var m :| m in metas && FateOf(w.hubs, m).Delivered? && PlaceOf(m) == p;
        assert p in Places(metas);
      }
      if p in Reachable(w.hubs, user) {
        assert p in Places(metas);
        var m :| m in metas && PlaceOf(m) == p;
        assert FateOf(w.hubs, m).Delivered?;
      }
    }
  }

  /** A push from any gateway puts exactly one copy on each of the user's connections
      whose queue is open and not full, on any gateway, and nothing on any other
      connection; it reports success iff there is such a connection, with their number. */
  lemma ExactDelivery(w: World, at: string, user: string, ids: seq<string>, msg: Message)
    requires Quiet(w) && at in w.hubs && user != ""
    requires Agree(w, user) && Enumerates(ids, Members(w.db, user))
    ensures var (w', r) := RouteUser(w, at, user, ids, msg);
            && w'.hubs == DeliverToUser(w.hubs, user, msg)
            && (Reachable(w.hubs, user) != {} ==>
                r == PushResult(user, true, StatusSuccess, |Reachable(w.hubs, user)|, ""))
            && (Reachable(w.hubs, user) == {} ==> r.status != StatusSuccess && r.connectionCount == 0)
  {
    var s := RouteUserQuiet(w, at, user, ids, msg);
    IndexedAreListed(w.db, user, ids);
    ListedPlaces(w, user, LiveMetas(w.db, user, ids), msg);
  }

  lemma IndexedAreListed(db: Db, user: string, ids: seq<string>)
    requires Keyed(db) && Enumerates(ids, Members(db, user))
    ensures ListsOwned(db, user, LiveMetas(db, user, ids))
  {
    LiveMetasExact(db, user, ids);
    forall id | id in Members(db, user) && !Blank(id) && Owns(db, user, id)
      ensures S.Seen(db, id).value in LiveMetas(db, user, ids)
    {
      SeenCarriesItsKey(db, id);
    }
  }

  lemma OwnedAreListed(w: World, user: string, ids: seq<string>, span: int)
    requires R.Sound(w.db, span) && user != "" && Enumerates(ids, Members(w.db, user))
    ensures forall id :: id in OwnedIds(w.db, user) ==> S.Seen(w.db, id).value in LiveMetas(w.db, user, ids)
  {
    LiveMetasExact(w.db, user, ids);
    forall id | id in OwnedIds(w.db, user) ensures S.Seen(w.db, id).value in LiveMetas(w.db, user, ids) {
      SeenCarriesItsKey(w.db, id);
      assert R.IndexedAt(w.db, span, id);
    }
  }

  // ----- convergence -----

  /** After a push the user's remaining routes are exactly those whose gateway has
      the connection, or does not exist in the fleet. */
  lemma PushConverges(w: World, at: string, user: string, ids: seq<string>, msg: Message, span: int)
    requires Quiet(w) && at in w.hubs && user != ""
    requires R.Sound(w.db, span) && Enumerates(ids, Members(w.db, user))
    ensures var w' := RouteUser(w, at, user, ids, msg).0;
            OwnedIds(w'.db, user) ==
            (set id | id in OwnedIds(w.db, user) && !FateOf(w.hubs, S.Seen(w.db, id).value).Stale?)
  {
    var s := RouteUserQuiet(w, at, user, ids, msg);
    var metas := LiveMetas(w.db, user, ids);
    PushedStore(w, user, metas, msg);
    OwnedAfterDrop(w.db, PushedToUser(w, user, metas, msg).db, user, StaleRoutes(w.hubs, metas));
    OwnedAreListed(w, user, ids, span);
    forall id | id in OwnedIds(w.db, user)
      ensures id in StaleRoutes(w.hubs, metas) <==> FateOf(w.hubs, S.Seen(w.db, id).value).Stale?
    {
      SeenCarriesItsKey(w.db, id);
    }
  }

  lemma OwnedAfterDrop(db: Db, db': Db, user: string, ids: set<string>)
    requires db'.facts == db.facts - ids && db'.now == db.now
    ensures OwnedIds(db', user) == OwnedIds(db, user) - ids
  {
  }

  lemma AllStale(hubs: map<string, Hub>, metas: seq<ConnectionMeta>, s: Summary)
    requires Tallies(hubs, metas, s) && s.successCount == 0 && s.failCount == 0
    ensures forall m :: m in metas ==> m.connectionID in StaleRoutes(hubs, metas)
  {
    forall m | m in metas ensures FateOf(hubs, m).Stale? {
      assert PlaceOf(m) in Met(hubs, metas, FateOf(hubs, m));
    }
  }

  /** A push that reports stale routes cleaned leaves the user offline: an immediate
      second push, from any gateway, finds no route. */
  lemma StaleCleanedThenOffline(w: World, at: string, at': string, user: string, ids: seq<string>, ids': seq<string>,
      msg: Message)
    requires Quiet(w) && at in w.hubs && at' in w.hubs && Enumerates(ids, Members(w.db, user))
    requires RouteUser(w, at, user, ids, msg).1.status == StaleCleaned
    requires Enumerates(ids', Members(RouteUser(w, at, user, ids, msg).0.db, user))
    ensures var w' := RouteUser(w, at, user, ids, msg).0;
            at' in w'.hubs && Keyed(w'.db) && RouteUser(w', at', user, ids', msg).1.status == NoopOffline
  {
    var s := RouteUserQuiet(w, at, user, ids, msg);
    var metas := LiveMetas(w.db, user, ids);
    var w' := PushedToUser(w, user, metas, msg);
    PushedStore(w, user, metas, msg);
    AllStale(w.hubs, metas, s);
    LiveMetasExact(w.db, user, ids);
    NothingLeft(w.db, w'.db, user, ids, ids');
    var s' := RouteUserQuiet(w', at', user, ids', msg);
    assert forall fate: Fate :: Met(w'.hubs, [], fate) == {};
  }

  lemma LiveMetasShrink(db: Db, db': Db, user: string, ids: seq<string>, ids': seq<string>)
    requires Keyed(db) && Enumerates(ids, Members(db, user)) && Enumerates(ids', Members(db', user))
    requires Members(db', user) <= Members(db, user) && db'.now == db.now
    requires forall id :: id in db'.facts ==> id in db.facts && db'.facts[id] == db.facts[id]
    ensures forall m :: m in LiveMetas(db', user, ids') ==> m in LiveMetas(db, user, ids) && m.connectionID in db'.facts
  {
    LiveMetasExact(db, user, ids);
    LiveMetasExact(db', user, ids');
    forall m: ConnectionMeta | m in LiveMetas(db', user, ids')
      ensures m in LiveMetas(db, user, ids) && m.connectionID in db'.facts
    {
      assert S.Seen(db, m.connectionID) == Some(m);
    }
  }

  lemma HeadIsElement(metas: seq<ConnectionMeta>)
    requires metas != []
    ensures metas[0] in metas
  {
  }

  lemma NothingLeft(db: Db, db': Db, user: string, ids: seq<string>, ids': seq<string>)
    requires Keyed(db) && Enumerates(ids, Members(db, user)) && Enumerates(ids', Members(db', user))
    requires Members(db', user) <= Members(db, user) && db'.now == db.now
    requires forall id :: id in db'.facts ==> id in db.facts && db'.facts[id] == db.facts[id]
    requires forall m :: m in LiveMetas(db, user, ids) ==> m.connectionID !in db'.facts
    ensures LiveMetas(db', user, ids') == []
  {
    LiveMetasShrink(db, db', user, ids, ids');
    if LiveMetas(db', user, ids') != [] { HeadIsElement(LiveMetas(db', user, ids')); }
  }

  // ----- broadcasts -----

  /** Each connection of each gateway has one copy more. */
  ghost predicate ReachesEveryone(w: World, w': World, msg: Message) {
    && w'.hubs.Keys == w.hubs.Keys
    && forall g, c :: g in w.hubs && c in w.hubs[g] ==>
      c in w'.hubs[g] && w'.hubs[g][c] == w.hubs[g][c].(queue := w.hubs[g][c].queue + [msg])
  }

  /** A broadcast, which always reports success, reaches every connection iff the gateway
      that serves it has all of them and none is closed or full. */
  lemma BroadcastReachesEveryoneIff(w: World, at: string, msg: Message)
    requires at in w.hubs
    ensures var (w', r) := RouteBroadcast(w, at, msg);
            && r == BROADCAST_DONE
            && (ReachesEveryone(w, w', msg) <==>
                && (forall c :: c in w.hubs[at] ==> Verdict(w.hubs[at][c]).Accepted?)
                && (forall g :: g in w.hubs && g != at ==> w.hubs[g] == map[]))
  {
    var w' := RouteBroadcast(w, at, msg).0;
    if ReachesEveryone(w, w', msg) {
      forall c | c in w.hubs[at] ensures Verdict(w.hubs[at][c]).Accepted? {
        SendAddsIff(w.hubs[at][c], msg);
      }
      forall g | g in w.hubs && g != at ensures w.hubs[g] == map[] {
        forall c | c in w.hubs[g] ensures |w'.hubs[g][c].queue| == |w.hubs[g][c].queue| + 1 {}
      }
    }
  }

  lemma SendAddsIff(c: ConnState, msg: Message)
    ensures Send(c, msg) == c.(queue := c.queue + [msg]) <==> Verdict(c).Accepted?
  {
    assert |c.queue + [msg]| == |c.queue| + 1;
  }

  /** A connection on a second gateway is missed and success reported. */
  lemma BroadcastMissesOtherGateways(at: string, there: string, msg: Message)
    requires at != there
    ensures var far := ConnState("user", [], false, 0);
            var w := World(Db(0, map[], map[], []), map[at := map[], there := map["far" := far]], []);
            var (w', r) := RouteBroadcast(w, at, msg);
            r.success && w'.hubs[there]["far"].queue == [] && !ReachesEveryone(w, w', msg)
  {
    var far := ConnState("user", [], false, 0);
    var w := World(Db(0, map[], map[], []), map[at := map[], there := map["far" := far]], []);
    assert "far" in w.hubs[there];
    BroadcastReachesEveryoneIff(w, at, msg);
  }

  /** So is a connection whose queue is full. */
  lemma BroadcastSkipsFullQueue(at: string, msg: Message)
    ensures var full := ConnState("user", seq(SEND_CAPACITY, _ => msg), false, 0);
            var w := World(Db(0, map[], map[], []), map[at := map["near" := full]], []);
            var (w', r) := RouteBroadcast(w, at, msg);
            r.success && w'.hubs[at]["near"] == full && !ReachesEveryone(w, w', msg)
  {
    var full := ConnState("user", seq(SEND_CAPACITY, _ => msg), false, 0);
    var w := World(Db(0, map[], map[], []), map[at := map["near" := full]], []);
    assert "near" in w.hubs[at] && !Verdict(w.hubs[at]["near"]).Accepted?;
    BroadcastReachesEveryoneIff(w, at, msg);
  }
}
