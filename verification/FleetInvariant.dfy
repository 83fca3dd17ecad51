/** What every event keeps in a fleet whose timing is right: the routes of connections
    that are still in a hub outlive the wait for the next sweep. */
module FleetInvariant {
  import opened RouteModel
  import opened Redis
  import opened FrontierModel
  import S = RouteSpec
  import opened RouteReads
  import R = RouteRuns
  import opened RouterSpec
  import opened RouterDelivery
  import T = RouterTheorems
  import opened FleetRuns

  /** An authenticated connection that is still open. */
  predicate Served(c: ConnState) { c.userID != "" && !c.closed }

  /** The longest a connection can stay open without activity. */
  function MaxIdle(conf: GatewayConf): int { conf.timeout + conf.interval }

  predicate Until(expiry: Option<int>, t: int) { expiry.None? || t <= expiry.value }

  /** The route of `id` is stored and indexed under `user`, neither expiring before `t`. */
  predicate Outlasts(db: Db, user: string, id: string, t: int) {
    && id in db.facts && t <= db.facts[id].expiry
    && user in db.index && id in db.index[user].members && Until(db.index[user].expiry, t)
  }

  /** A connection whose route must hold: open, or closed within its time and touched
      only within its time. `lapsed` lists the others. */
  predicate Covered(f: Fleet, lapsed: set<Place>, g: string, id: string)
    requires g in f.world.hubs && id in f.world.hubs[g] && g in f.confs
  {
    var c := f.world.hubs[g][id];
    && c.userID != ""
    && (c.closed ==> (g, id) !in lapsed && f.world.db.now < c.lastActive + MaxIdle(f.confs[g]))
  }

  predicate RouteLasts(db: Db, conf: GatewayConf, swept: int, g: string, id: string, c: ConnState) {
    && !Blank(id) && id in db.facts
    && db.facts[id].meta.userID == c.userID && db.facts[id].meta.gatewayAddr == g
    && c.lastActive <= db.now
    && Outlasts(db, c.userID, id, c.lastActive + MaxIdle(conf))
    && (!c.closed ==> Outlasts(db, c.userID, id, swept + conf.interval + 1))
  }

  ghost predicate RoutedAt(f: Fleet, g: string, id: string)
    requires Shape(f) && g in f.world.hubs && id in f.world.hubs[g]
  {
    RouteLasts(f.world.db, f.confs[g], f.swept[g], g, id, f.world.hubs[g][id])
  }

  ghost predicate Routed(f: Fleet, lapsed: set<Place>)
    requires Shape(f)
  {
    forall g, id :: g in f.world.hubs && id in f.world.hubs[g] && Covered(f, lapsed, g, id) ==> RoutedAt(f, g, id)
  }

  /** A connection lives on one gateway, and a route that names it has its user. */
  ghost predicate OneHome(w: World) {
    && (forall g, h, id :: g in w.hubs && h in w.hubs && id in w.hubs[g] && id in w.hubs[h] ==> g == h)
    && (forall g, id :: g in w.hubs && id in w.hubs[g] && id in w.db.facts && w.db.facts[id].meta.gatewayAddr == g ==>
        w.hubs[g][id].userID == w.db.facts[id].meta.userID)
  }

  /** Every route outlives the longest idle stay at its gateway. */
  ghost predicate Sized(f: Fleet) {
    forall g :: g in f.confs ==> MaxIdle(f.confs[g]) <= f.confs[g].store.ttl
  }

  /** So does an index set renewed by any gateway. */
  ghost predicate IndexSized(f: Fleet) {
    forall g, h :: g in f.confs && h in f.confs ==> MaxIdle(f.confs[g]) <= f.confs[h].store.ttl * 2
  }

  ghost predicate Timely(f: Fleet)
    requires Shape(f)
  {
    && Sized(f) && IndexSized(f)
    && forall g :: g in f.confs ==> f.swept[g] <= f.world.db.now <= f.swept[g] + f.confs[g].interval
  }

  /** A Redis that does not fail, with records as registrations write them. */
  ghost predicate Healthy(db: Db) {
    db.script == [] && Keyed(db) && forall id :: id in db.facts ==> db.facts[id].meta.userID != ""
  }

  ghost predicate FleetOK(f: Fleet, lapsed: set<Place>) {
    Shape(f) && Timely(f) && Routed(f, lapsed) && OneHome(f.world) && Healthy(f.world.db)
  }

  /** A closed connection whose time is over before the event touches it. */
  predicate Late(f: Fleet, e: Event) {
    && e.Activity?
    && e.g in f.world.hubs && e.id in f.world.hubs[e.g] && e.g in f.confs
    && f.world.hubs[e.g][e.id].closed
    && f.world.hubs[e.g][e.id].lastActive + MaxIdle(f.confs[e.g]) <= f.world.db.now
  }

  function LapsedBy(f: Fleet, e: Event, lapsed: set<Place>): set<Place> {
    if Late(f, e) then lapsed + {(e.g, e.id)} else lapsed
  }

  // ----- the covered are routable -----

  lemma CoveredIsRoutable(f: Fleet, lapsed: set<Place>, g: string, id: string)
    requires FleetOK(f, lapsed) && g in f.world.hubs && id in f.world.hubs[g] && Covered(f, lapsed, g, id)
    ensures var (db, user) := (f.world.db, f.world.hubs[g][id].userID);
            && !Blank(id) && id in db.facts && id in Members(db, user)
            && Owns(db, user, id) && S.Seen(db, id).value.gatewayAddr == g
  {
    assert RoutedAt(f, g, id);
    assert f.world.db.now <= f.swept[g] + f.confs[g].interval;
  }

  // ----- changes of the connections -----

  /** Connections may only leave, close, or change their queue. */
  ghost predicate Tamed(hubs: map<string, Hub>, hubs': map<string, Hub>) {
    && hubs'.Keys == hubs.Keys
    && forall g, id :: g in hubs && id in hubs'[g] ==>
      && id in hubs[g]
      && hubs'[g][id].userID == hubs[g][id].userID
      && hubs'[g][id].lastActive == hubs[g][id].lastActive
      && (hubs[g][id].closed ==> hubs'[g][id].closed)
  }

  lemma TamingKeepsHome(w: World, hubs': map<string, Hub>)
    requires OneHome(w) && Tamed(w.hubs, hubs')
    ensures OneHome(w.(hubs := hubs'))
  {
  }

  lemma TamingKeepsRoutes(f: Fleet, hubs': map<string, Hub>, lapsed: set<Place>)
    requires Shape(f) && Routed(f, lapsed) && Tamed(f.world.hubs, hubs')
    ensures Routed(f.(world := f.world.(hubs := hubs')), lapsed)
  {
    var f' := f.(world := f.world.(hubs := hubs'));
    forall g, id | g in hubs' && id in hubs'[g] && Covered(f', lapsed, g, id) ensures RoutedAt(f', g, id) {
      assert Covered(f, lapsed, g, id) && RoutedAt(f, g, id);
    }
  }

  lemma TamingKeeps(f: Fleet, hubs': map<string, Hub>, lapsed: set<Place>)
    requires FleetOK(f, lapsed) && Tamed(f.world.hubs, hubs')
    ensures FleetOK(f.(world := f.world.(hubs := hubs')), lapsed)
  {
    TamingKeepsHome(f.world, hubs');
    TamingKeepsRoutes(f, hubs', lapsed);
  }

  lemma PutKeepsHome(w: World, g: string, id: string, c: ConnState)
    requires OneHome(w) && g in w.hubs && (id in w.hubs[g] || Homeless(w.hubs, id))
    requires id in w.db.facts && w.db.facts[id].meta.gatewayAddr == g ==> w.db.facts[id].meta.userID == c.userID
    ensures OneHome(Put(w, g, id, c))
  {
    var w' := Put(w, g, id, c);
    assert forall h, x :: h in w.hubs && x in w'.hubs[h] ==> x in w.hubs[h] || (h == g && x == id);
  }

  lemma PutKeepsRoutes(f: Fleet, g: string, id: string, c: ConnState, lapsed: set<Place>, lapsed': set<Place>)
    requires Shape(f) && Routed(f, lapsed) && g in f.world.hubs && lapsed <= lapsed'
    requires Covered(f.(world := Put(f.world, g, id, c)), lapsed', g, id) ==>
               RouteLasts(f.world.db, f.confs[g], f.swept[g], g, id, c)
    ensures Routed(f.(world := Put(f.world, g, id, c)), lapsed')
  {
    var f' := f.(world := Put(f.world, g, id, c));
    forall h, x | h in f'.world.hubs && x in f'.world.hubs[h] && Covered(f', lapsed', h, x) ensures RoutedAt(f', h, x) {
      if h != g || x != id { assert Covered(f, lapsed, h, x) && RoutedAt(f, h, x); }
    }
  }

  /** One connection appears on a gateway or changes there. */
  lemma PutKeeps(f: Fleet, g: string, id: string, c: ConnState, lapsed: set<Place>, lapsed': set<Place>)
    requires FleetOK(f, lapsed) && g in f.world.hubs && lapsed <= lapsed'
    requires id in f.world.hubs[g] || Homeless(f.world.hubs, id)
    requires id in f.world.db.facts && f.world.db.facts[id].meta.gatewayAddr == g ==>
               f.world.db.facts[id].meta.userID == c.userID
    requires Covered(f.(world := Put(f.world, g, id, c)), lapsed', g, id) ==>
               RouteLasts(f.world.db, f.confs[g], f.swept[g], g, id, c)
    ensures FleetOK(f.(world := Put(f.world, g, id, c)), lapsed')
  {
    PutKeepsHome(f.world, g, id, c);
    PutKeepsRoutes(f, g, id, c, lapsed, lapsed');
  }

  // ----- changes of the store -----

  /** No record appears for a connection in a hub, and covered ones keep a route that
      lasts as it did or for the longest idle stay. */
  ghost predicate KeepsRoutes(f: Fleet, db': Db, lapsed: set<Place>)
    requires Shape(f)
  {
    && (forall id :: id in db'.facts ==>
        || Homeless(f.world.hubs, id)
        || (&& id in f.world.db.facts
            && db'.facts[id].meta.userID == f.world.db.facts[id].meta.userID
            && db'.facts[id].meta.gatewayAddr == f.world.db.facts[id].meta.gatewayAddr))
    && (forall g, id :: g in f.world.hubs && id in f.world.hubs[g] && Covered(f, lapsed, g, id) ==>
        KeepsRoute(f.world.db, db', f.world.hubs[g][id].userID, id, f.world.db.now + MaxIdle(f.confs[g])))
  }

  predicate KeepsRoute(db: Db, db': Db, user: string, id: string, t: int) {
    && id in db.facts && user in db.index
    && id in db'.facts && (db'.facts[id].expiry == db.facts[id].expiry || t <= db'.facts[id].expiry)
    && user in db'.index && id in db'.index[user].members
    && (db'.index[user].expiry == db.index[user].expiry || Until(db'.index[user].expiry, t))
  }

  lemma RouteStillLasts(db: Db, db': Db, conf: GatewayConf, swept: int, g: string, id: string, c: ConnState)
    requires RouteLasts(db, conf, swept, g, id, c) && swept <= db.now == db'.now
    requires KeepsRoute(db, db', c.userID, id, db.now + MaxIdle(conf))
    requires db'.facts[id].meta.userID == c.userID && db'.facts[id].meta.gatewayAddr == g
    ensures RouteLasts(db', conf, swept, g, id, c)
  {
  }

  lemma RoutesStillLast(f: Fleet, db': Db, lapsed: set<Place>)
    requires FleetOK(f, lapsed) && Keyed(db') && db'.now == f.world.db.now && KeepsRoutes(f, db', lapsed)
    ensures Routed(f.(world := f.world.(db := db')), lapsed)
  {
    var f' := f.(world := f.world.(db := db'));
    forall g, id | g in f'.world.hubs && id in f'.world.hubs[g] && Covered(f', lapsed, g, id)
      ensures RoutedAt(f', g, id)
    {
      assert Covered(f, lapsed, g, id) && RoutedAt(f, g, id);
      RouteStillLasts(f.world.db, db', f.confs[g], f.swept[g], g, id, f.world.hubs[g][id]);
    }
  }

  lemma StoreKeeps(f: Fleet, db': Db, lapsed: set<Place>)
    requires FleetOK(f, lapsed) && Healthy(db') && db'.now == f.world.db.now && KeepsRoutes(f, db', lapsed)
    ensures FleetOK(f.(world := f.world.(db := db')), lapsed)
  {
    RoutesStillLast(f, db', lapsed);
    StoreKeepsHome(f.world, db');
  }

  lemma StoreKeepsHome(w: World, db': Db)
    requires OneHome(w)
    requires forall id :: id in db'.facts ==>
               || Homeless(w.hubs, id)
               || (&& id in w.db.facts
                   && db'.facts[id].meta.userID == w.db.facts[id].meta.userID
                   && db'.facts[id].meta.gatewayAddr == w.db.facts[id].meta.gatewayAddr)
    ensures OneHome(w.(db := db'))
  {
  }

  lemma SameRoute(f: Fleet, lapsed: set<Place>, g: string, id: string)
    requires FleetOK(f, lapsed) && g in f.world.hubs && id in f.world.hubs[g] && Covered(f, lapsed, g, id)
    ensures KeepsRoute(f.world.db, f.world.db, f.world.hubs[g][id].userID, id, f.world.db.now + MaxIdle(f.confs[g]))
  {
    assert RoutedAt(f, g, id);
  }

  /** A registration by gateway `h` renews one record and the set it is in. */
  lemma WriteKeeps(f: Fleet, h: string, m: ConnectionMeta, lapsed: set<Place>)
    requires FleetOK(f, lapsed) && h in f.confs && m.userID != "" && m.connectionID != ""
    requires var (db, id) := (f.world.db, m.connectionID);
             if id in db.facts then
               && S.Normalize(f.confs[h].store, db.now, m).gatewayAddr == db.facts[id].meta.gatewayAddr
               && m.userID == db.facts[id].meta.userID
               && forall g :: g in f.world.hubs && id in f.world.hubs[g] ==> g == h
             else Homeless(f.world.hubs, id)
    ensures FleetOK(f.(world := f.world.(db := R.Registered(f.confs[h].store, f.world.db, m))), lapsed)
  {
    var db' := R.Registered(f.confs[h].store, f.world.db, m);
    forall g, id | g in f.world.hubs && id in f.world.hubs[g] && Covered(f, lapsed, g, id)
      ensures KeepsRoute(f.world.db, db', f.world.hubs[g][id].userID, id, f.world.db.now + MaxIdle(f.confs[g]))
    {
      SameRoute(f, lapsed, g, id);
      CoveredIsRoutable(f, lapsed, g, id);
      assert MaxIdle(f.confs[h]) <= f.confs[h].store.ttl && MaxIdle(f.confs[g]) <= f.confs[h].store.ttl * 2;
      WriteKeepsRoute(f.world.db, f.confs[h].store, m, f.world.hubs[g][id].userID, id,
          f.world.db.now + MaxIdle(f.confs[g]));
    }
    StoreKeeps(f, db', lapsed);
  }

  lemma WriteKeepsRoute(db: Db, conf: S.StoreConf, m: ConnectionMeta, owner: string, id: string, t: int)
    requires KeepsRoute(db, db, owner, id, t) && id in Members(db, owner)
    requires t <= db.now + conf.ttl * 2 && (id == m.connectionID ==> t <= db.now + conf.ttl)
    ensures KeepsRoute(db, R.Registered(conf, db, m), owner, id, t)
  {
  }

  /** Entries and records of other connections go. */
  lemma RemovalKeeps(f: Fleet, user: string, ids: set<string>, gone: set<string>, lapsed: set<Place>)
    requires FleetOK(f, lapsed)
    requires forall g, id :: g in f.world.hubs && id in f.world.hubs[g] && Covered(f, lapsed, g, id) ==>
               id !in gone && (f.world.hubs[g][id].userID == user ==> id !in ids)
    ensures FleetOK(f.(world := f.world.(db := Removed(f.world.db, user, ids, gone))), lapsed)
  {
    var db' := Removed(f.world.db, user, ids, gone);
    forall g, id | g in f.world.hubs && id in f.world.hubs[g] && Covered(f, lapsed, g, id)
      ensures KeepsRoute(f.world.db, db', f.world.hubs[g][id].userID, id, f.world.db.now + MaxIdle(f.confs[g]))
    {
      SameRoute(f, lapsed, g, id);
      RemovalKeepsRoute(f.world.db, user, ids, gone, f.world.hubs[g][id].userID, id,
          f.world.db.now + MaxIdle(f.confs[g]));
    }
    StoreKeeps(f, db', lapsed);
  }

  function Removed(db: Db, user: string, ids: set<string>, gone: set<string>): Db {
    RemoveMembers(db, user, ids).(facts := db.facts - gone)
  }

  lemma RemovalKeepsRoute(db: Db, user: string, ids: set<string>, gone: set<string>, owner: string, id: string, t: int)
    requires KeepsRoute(db, db, owner, id, t) && id !in gone && (owner == user ==> id !in ids)
    ensures KeepsRoute(db, Removed(db, user, ids, gone), owner, id, t)
  {
  }

  lemma EntriesKeep(f: Fleet, user: string, ids: set<string>, lapsed: set<Place>)
    requires FleetOK(f, lapsed)
    requires forall g, id :: g in f.world.hubs && id in f.world.hubs[g] && Covered(f, lapsed, g, id) ==>
               Owns(f.world.db, f.world.hubs[g][id].userID, id) && (f.world.hubs[g][id].userID == user ==> id !in ids)
    ensures FleetOK(f.(world := f.world.(db := RemoveMembers(f.world.db, user, ids))), lapsed)
  {
    assert Removed(f.world.db, user, ids, {}) == RemoveMembers(f.world.db, user, ids) by {
      assert f.world.db.facts - {} == f.world.db.facts;
    }
    RemovalKeeps(f, user, ids, {}, lapsed);
  }

  // ----- what one event keeps -----

  lemma TickKeeps(f: Fleet, elapsed: nat, lapsed: set<Place>)
    requires FleetOK(f, lapsed) && Enabled(f, Tick(elapsed))
    ensures FleetOK(Step(f, Tick(elapsed)), lapsed)
  {
    var f' := Step(f, Tick(elapsed));
    forall g, id | g in f'.world.hubs && id in f'.world.hubs[g] && Covered(f', lapsed, g, id)
      ensures RoutedAt(f', g, id)
    {
      assert Covered(f, lapsed, g, id) && RoutedAt(f, g, id);
    }
  }

  lemma ConnectKeeps(f: Fleet, g: string, id: string, user: string, born: int, meta: ConnectionMeta, lapsed: set<Place>)
    requires FleetOK(f, lapsed) && Enabled(f, Connect(g, id, user, born, meta))
    ensures FleetOK(Step(f, Connect(g, id, user, born, meta)), lapsed)
  {
    var c := ConnState(user, [], false, born);
    if user == "" {
      PutKeeps(f, g, id, c, lapsed, lapsed);
    } else {
      var m := HubMeta(g, id, user, born, meta);
      R.RegisterQuiet(f.confs[g].store, f.world.db, m);
      WriteKeeps(f, g, m, lapsed);
      var db' := R.Registered(f.confs[g].store, f.world.db, m);
      NewRouteLasts(f, g, m, born);
      PutKeeps(f.(world := f.world.(db := db')), g, id, c, lapsed, lapsed);
    }
  }

  lemma NewRouteLasts(f: Fleet, g: string, m: ConnectionMeta, active: int)
    requires Shape(f) && Timely(f) && g in f.confs && !Blank(m.connectionID) && active <= f.world.db.now
    requires S.Normalize(f.confs[g].store, f.world.db.now, m).gatewayAddr == g
    ensures RouteLasts(R.Registered(f.confs[g].store, f.world.db, m), f.confs[g], f.swept[g], g, m.connectionID,
                       ConnState(m.userID, [], false, active))
  {
    assert f.swept[g] <= f.world.db.now;
    assert MaxIdle(f.confs[g]) <= f.confs[g].store.ttl;
  }

  /** A refresh re-registers the record it read, or changes nothing. */
  lemma RefreshEffect(conf: S.StoreConf, db: Db, user: string, id: string)
    requires Healthy(db)
    ensures var db' := S.Refresh(conf, db, user, id).0;
            || db' == db
            || (Owns(db, S.Seen(db, id).value.userID, id) && db' == R.Registered(conf, db, S.Seen(db, id).value))
    ensures S.Seen(db, id).Some? && user in {"", S.Seen(db, id).value.userID} ==>
              S.Refresh(conf, db, user, id).0 == R.Registered(conf, db, S.Seen(db, id).value)
  {
    R.RefreshQuiet(conf, db, user, id);
    if S.Seen(db, id).Some? {
      SeenCarriesItsKey(db, id);
      var meta := S.Seen(db, id).value;
      R.RegisterQuiet(conf, db, S.Normalize(conf, db.now, if user != "" then meta.(userID := user) else meta));
    }
  }

  lemma RefreshKeeps(f: Fleet, g: string, user: string, id: string, lapsed: set<Place>)
    requires FleetOK(f, lapsed) && g in f.confs
    requires forall h :: h in f.world.hubs && id in f.world.hubs[h] ==> h == g
    ensures FleetOK(f.(world := f.world.(db := S.Refresh(f.confs[g].store, f.world.db, user, id).0)), lapsed)
  {
    RefreshEffect(f.confs[g].store, f.world.db, user, id);
    if S.Seen(f.world.db, id).Some? {
      SeenCarriesItsKey(f.world.db, id);
      WriteKeeps(f, g, S.Seen(f.world.db, id).value, lapsed);
    }
  }

  lemma ActivityKeeps(f: Fleet, g: string, id: string, lapsed: set<Place>)
    requires FleetOK(f, lapsed) && Enabled(f, Activity(g, id))
    ensures FleetOK(Step(f, Activity(g, id)), LapsedBy(f, Activity(g, id), lapsed))
  {
    var (c, lapsed') := (f.world.hubs[g][id], LapsedBy(f, Activity(g, id), lapsed));
    var touched := c.(lastActive := f.world.db.now);
    if c.userID == "" {
      PutKeeps(f, g, id, touched, lapsed, lapsed');
    } else {
      RefreshKeeps(f, g, c.userID, id, lapsed);
      var f1 := f.(world := f.world.(db := S.Refresh(f.confs[g].store, f.world.db, c.userID, id).0));
      if Covered(f, lapsed, g, id) { TouchedRouteLasts(f, g, id, lapsed); }
      PutKeeps(f1, g, id, touched, lapsed, lapsed');
    }
  }

  /** A covered connection's own refresh renews its route in full. */
  lemma TouchedRouteLasts(f: Fleet, g: string, id: string, lapsed: set<Place>)
    requires FleetOK(f, lapsed) && g in f.world.hubs && id in f.world.hubs[g] && Covered(f, lapsed, g, id)
    ensures var c := f.world.hubs[g][id];
            RouteLasts(S.Refresh(f.confs[g].store, f.world.db, c.userID, id).0, f.confs[g], f.swept[g], g, id,
                       c.(lastActive := f.world.db.now))
  {
    CoveredIsRoutable(f, lapsed, g, id);
    SeenCarriesItsKey(f.world.db, id);
    var meta := S.Seen(f.world.db, id).value;
    RefreshEffect(f.confs[g].store, f.world.db, f.world.hubs[g][id].userID, id);
    NewRouteLasts(f, g, meta, f.world.db.now);
  }

  /** A connection that survives a sweep has a route until after the next one. */
  lemma SweepKeeps(f: Fleet, g: string, lapsed: set<Place>)
    requires FleetOK(f, lapsed) && Enabled(f, Sweep(g))
    ensures FleetOK(Step(f, Sweep(g)), lapsed)
  {
    SweepTames(f.world.hubs, g, f.world.db.now, f.confs[g].timeout);
    var hubs' := f.world.hubs[g := SweepHub(f.world.hubs[g], f.world.db.now, f.confs[g].timeout)];
    TamingKeeps(f, hubs', lapsed);
    SweptKeeps(f.(world := f.world.(hubs := hubs')), g, lapsed);
  }

  lemma SweepTames(hubs: map<string, Hub>, g: string, now: int, timeout: int)
    requires g in hubs
    ensures var hubs' := hubs[g := SweepHub(hubs[g], now, timeout)];
            Tamed(hubs, hubs') && forall c :: c in hubs'[g] && Served(hubs'[g][c]) ==> Alive(hubs'[g][c], now, timeout)
  {
  }

  lemma AliveOutlastsNextSweep(db: Db, conf: GatewayConf, swept: int, g: string, id: string, c: ConnState)
    requires RouteLasts(db, conf, swept, g, id, c) && (c.closed || Alive(c, db.now, conf.timeout))
    ensures RouteLasts(db, conf, db.now, g, id, c)
  {
  }

  /** The next sweep of a gateway whose open connections are all alive may be late. */
  lemma SweptKeeps(f: Fleet, g: string, lapsed: set<Place>)
    requires FleetOK(f, lapsed) && g in f.world.hubs
    requires forall c :: c in f.world.hubs[g] && Served(f.world.hubs[g][c]) ==>
               Alive(f.world.hubs[g][c], f.world.db.now, f.confs[g].timeout)
    ensures FleetOK(f.(swept := f.swept[g := f.world.db.now]), lapsed)
  {
    SweptKeepsRoutes(f, g, lapsed);
  }

  lemma SweptKeepsRoutes(f: Fleet, g: string, lapsed: set<Place>)
    requires Shape(f) && Routed(f, lapsed) && g in f.world.hubs
    requires forall c :: c in f.world.hubs[g] && Served(f.world.hubs[g][c]) ==>
               Alive(f.world.hubs[g][c], f.world.db.now, f.confs[g].timeout)
    ensures Shape(f.(swept := f.swept[g := f.world.db.now]))
    ensures Routed(f.(swept := f.swept[g := f.world.db.now]), lapsed)
  {
    var f' := f.(swept := f.swept[g := f.world.db.now]);
    forall h, id | h in f'.world.hubs && id in f'.world.hubs[h] && Covered(f', lapsed, h, id)
      ensures RoutedAt(f', h, id)
    {
      assert Covered(f, lapsed, h, id) && RoutedAt(f, h, id);
      if h == g { AliveOutlastsNextSweep(f.world.db, f.confs[g], f.swept[g], g, id, f.world.hubs[g][id]); }
    }
  }

  lemma UnregisterKeeps(f: Fleet, g: string, id: string, lapsed: set<Place>)
    requires FleetOK(f, lapsed) && Enabled(f, Unregister(g, id))
    ensures FleetOK(Step(f, Unregister(g, id)), lapsed)
  {
    var hubs' := f.world.hubs[g := f.world.hubs[g] - {id}];
    LeavingTames(f.world, g, id);
    TamingKeeps(f, hubs', lapsed);
    var user := f.world.hubs[g][id].userID;
    if user != "" { CleanupKeeps(f.(world := f.world.(hubs := hubs')), user, id, lapsed); }
  }

  lemma LeavingTames(w: World, g: string, id: string)
    requires OneHome(w) && g in w.hubs && id in w.hubs[g]
    ensures var hubs' := w.hubs[g := w.hubs[g] - {id}]; Tamed(w.hubs, hubs') && Homeless(hubs', id)
  {
  }

  lemma CleanupKeeps(f: Fleet, user: string, id: string, lapsed: set<Place>)
    requires FleetOK(f, lapsed) && user != "" && Homeless(f.world.hubs, id)
    ensures FleetOK(f.(world := f.world.(db := S.Cleanup(f.world.db, user, id).0)), lapsed)
  {
    if id != "" {
      CleanupDrops(f.world.db, user, id);
      RemovalKeeps(f, user, {id}, {id}, lapsed);
    }
  }

  /** Dropping routes whose gateway lacks the connection. */
  lemma DropStaleKeeps(f: Fleet, user: string, ids: set<string>, lapsed: set<Place>)
    requires FleetOK(f, lapsed)
    requires forall id :: id in ids && id in f.world.db.facts ==>
               f.world.db.facts[id].meta.gatewayAddr in f.world.hubs &&
               id !in f.world.hubs[f.world.db.facts[id].meta.gatewayAddr]
    ensures FleetOK(f.(world := f.world.(db := DropRoutes(f.world.db, user, ids))), lapsed)
  {
    if ids != {} {
      forall g, id | g in f.world.hubs && id in f.world.hubs[g] && Covered(f, lapsed, g, id) ensures id !in ids {
        assert RoutedAt(f, g, id);
      }
      RemovalKeeps(f, user, ids, ids, lapsed);
    }
  }

  lemma CoveredAreOwned(f: Fleet, lapsed: set<Place>)
    requires FleetOK(f, lapsed)
    ensures forall g, id :: g in f.world.hubs && id in f.world.hubs[g] && Covered(f, lapsed, g, id) ==>
              Owns(f.world.db, f.world.hubs[g][id].userID, id)
  {
    forall g, id | g in f.world.hubs && id in f.world.hubs[g] && Covered(f, lapsed, g, id)
      ensures Owns(f.world.db, f.world.hubs[g][id].userID, id)
    {
      CoveredIsRoutable(f, lapsed, g, id);
    }
  }

  /** A reader removes entries without a record of the user. */
  lemma RepairKeeps(f: Fleet, user: string, lapsed: set<Place>)
    requires FleetOK(f, lapsed)
    ensures FleetOK(f.(world := f.world.(db := Repaired(f.world.db, user))), lapsed)
  {
    CoveredAreOwned(f, lapsed);
    var stale := StaleSet(f.world.db, user);
    if stale == {} {
      assert f.(world := f.world.(db := Repaired(f.world.db, user))) == f;
    } else {
      EntriesKeep(f, user, stale, lapsed);
    }
  }

  /** So does the sweeper. */
  lemma SweeperKeeps(f: Fleet, user: string, lapsed: set<Place>)
    requires FleetOK(f, lapsed)
    ensures FleetOK(f.(world := f.world.(db := Swept(f.world.db, user))), lapsed)
  {
    CoveredAreOwned(f, lapsed);
    var swept := SweptIds(f.world.db, user);
    if swept == {} {
      assert f.(world := f.world.(db := Swept(f.world.db, user))) == f;
    } else {
      EntriesKeep(f, user, swept, lapsed);
    }
  }

  lemma PushedKeeps(f: Fleet, user: string, metas: seq<ConnectionMeta>, msg: Message, lapsed: set<Place>)
    requires FleetOK(f, lapsed)
    requires forall m :: m in metas ==> S.Seen(f.world.db, m.connectionID) == Some(m)
    ensures FleetOK(f.(world := T.PushedToUser(f.world, user, metas, msg)), lapsed)
  {
    var w := f.world;
    RepairKeeps(f, user, lapsed);
    var f1 := f.(world := w.(db := Repaired(w.db, user)));
    var stale := StaleRoutes(w.hubs, metas);
    DropStaleKeeps(f1, user, stale, lapsed);
    var f2 := f1.(world := f1.world.(db := DropRoutes(f1.world.db, user, stale)));
    DeliverTames(w.hubs, Places(metas), msg);
    TamingKeeps(f2, Deliver(w.hubs, Places(metas), msg), lapsed);
  }

  lemma DeliverTames(hubs: map<string, Hub>, places: set<Place>, msg: Message)
    ensures Tamed(hubs, Deliver(hubs, places, msg))
  {
  }

  lemma PushUserKeeps(f: Fleet, g: string, user: string, ids: seq<string>, msg: Message, lapsed: set<Place>)
    requires FleetOK(f, lapsed) && Enabled(f, PushUser(g, user, ids, msg))
    ensures FleetOK(Step(f, PushUser(g, user, ids, msg)), lapsed)
  {
    if user != "" {
      var s := T.RouteUserQuiet(f.world, g, user, ids, msg);
      PushedKeeps(f, user, LiveMetas(f.world.db, user, ids), msg, lapsed);
    }
  }

  lemma RepairIndexKeeps(f: Fleet, user: string, ids: seq<string>, lapsed: set<Place>)
    requires FleetOK(f, lapsed) && Enabled(f, RepairIndex(user, ids))
    ensures FleetOK(Step(f, RepairIndex(user, ids)), lapsed)
  {
    SweepQuiet(f.world.db, user, ids);
    SweeperKeeps(f, user, lapsed);
  }

  /** Without failures a push to one connection changes its queue, or drops its route
      when the gateway it names lacks it, or changes nothing. */
  lemma RouteConnectionQuiet(w: World, at: string, id: string, msg: Message)
    requires Quiet(w) && at in w.hubs
    requires S.Seen(w.db, id).Some? ==> S.Seen(w.db, id).value.userID != ""
    ensures var w' := RouteConnection(w, at, id, msg).world;
            || w' == w
            || (exists g :: g in w.hubs && id in w.hubs[g] && w' == WorldSend(w, g, id, msg).0)
            || (&& S.Seen(w.db, id).Some? && FateOf(w.hubs, S.Seen(w.db, id).value).Stale?
                && w' == w.(db := DropRoutes(w.db, S.Seen(w.db, id).value.userID, {id})))
  {
    if id != "" && id !in w.hubs[at] {
      S.GetOnlyReads(w.db, id);
      if S.Seen(w.db, id).Some? {
        SeenCarriesItsKey(w.db, id);
        var meta := S.Seen(w.db, id).value;
        if meta.gatewayAddr in w.hubs { AtItsGateway(w, meta, msg); }
      }
    }
  }

  lemma SendTames(w: World, g: string, id: string, msg: Message)
    requires g in w.hubs
    ensures Tamed(w.hubs, WorldSend(w, g, id, msg).0.hubs)
    ensures WorldSend(w, g, id, msg).0 == w.(hubs := WorldSend(w, g, id, msg).0.hubs)
  {
  }

  lemma PushConnectionKeeps(f: Fleet, g: string, id: string, msg: Message, lapsed: set<Place>)
    requires FleetOK(f, lapsed) && Enabled(f, PushConnection(g, id, msg))
    ensures FleetOK(Step(f, PushConnection(g, id, msg)), lapsed)
  {
    var w := f.world;
    RouteConnectionQuiet(w, g, id, msg);
    var w' := RouteConnection(w, g, id, msg).world;
    if h :| h in w.hubs && id in w.hubs[h] && w' == WorldSend(w, h, id, msg).0 {
      SendTames(w, h, id, msg);
      TamingKeeps(f, w'.hubs, lapsed);
    } else if w' != w {
      DropStaleKeeps(f, S.Seen(w.db, id).value.userID, {id}, lapsed);
    }
  }

  lemma PutTames(w: World, g: string, id: string, c: ConnState)
    requires g in w.hubs && id in w.hubs[g]
    requires c.userID == w.hubs[g][id].userID && c.lastActive == w.hubs[g][id].lastActive
    requires w.hubs[g][id].closed ==> c.closed
    ensures Tamed(w.hubs, Put(w, g, id, c).hubs)
  {
  }

  /** A connection closes or its queue changes. */
  lemma ChangeKeeps(f: Fleet, g: string, id: string, c: ConnState, lapsed: set<Place>)
    requires FleetOK(f, lapsed) && g in f.world.hubs && id in f.world.hubs[g]
    requires c.userID == f.world.hubs[g][id].userID && c.lastActive == f.world.hubs[g][id].lastActive
    requires f.world.hubs[g][id].closed ==> c.closed
    ensures FleetOK(f.(world := Put(f.world, g, id, c)), lapsed)
  {
    PutTames(f.world, g, id, c);
    var hubs' := Put(f.world, g, id, c).hubs;
    TamingKeeps(f, hubs', lapsed);
  }

  lemma BroadcastTames(w: World, g: string, msg: Message)
    requires g in w.hubs
    ensures Tamed(w.hubs, WorldBroadcast(w, g, msg).hubs)
  {
  }

  lemma BroadcastKeeps(f: Fleet, g: string, msg: Message, lapsed: set<Place>)
    requires FleetOK(f, lapsed) && Enabled(f, Broadcast(g, msg))
    ensures FleetOK(Step(f, Broadcast(g, msg)), lapsed)
  {
    BroadcastTames(f.world, g, msg);
    TamingKeeps(f, WorldBroadcast(f.world, g, msg).hubs, lapsed);
  }

  lemma CloseKeeps(f: Fleet, g: string, id: string, lapsed: set<Place>)
    requires FleetOK(f, lapsed) && Enabled(f, Close(g, id))
    ensures FleetOK(Step(f, Close(g, id)), lapsed)
  {
    ChangeKeeps(f, g, id, f.world.hubs[g][id].(closed := true), lapsed);
  }

  lemma PumpKeeps(f: Fleet, g: string, id: string, lapsed: set<Place>)
    requires FleetOK(f, lapsed) && Enabled(f, Pump(g, id))
    ensures FleetOK(Step(f, Pump(g, id)), lapsed)
  {
    ChangeKeeps(f, g, id, f.world.hubs[g][id].(queue := f.world.hubs[g][id].queue[1..]), lapsed);
  }

  lemma LateRefreshKeeps(f: Fleet, g: string, user: string, id: string, lapsed: set<Place>)
    requires FleetOK(f, lapsed) && Enabled(f, LateRefresh(g, user, id))
    ensures FleetOK(Step(f, LateRefresh(g, user, id)), lapsed)
  {
    RefreshKeeps(f, g, user, id, lapsed);
  }

  /** Every event keeps every covered connection routable. */
  lemma StepKeeps(f: Fleet, e: Event, lapsed: set<Place>)
    requires FleetOK(f, lapsed) && Enabled(f, e)
    ensures FleetOK(Step(f, e), LapsedBy(f, e, lapsed))
  {
    if e.Activity? {
      ActivityKeeps(f, e.g, e.id, lapsed);
    } else if e.Tick? || e.Sweep? {
      ClockStepKeeps(f, e, lapsed);
    } else if e.Connect? || e.LateRefresh? || e.Close? || e.Unregister? || e.Pump? {
      ConnectionStepKeeps(f, e, lapsed);
    } else {
      PushStepKeeps(f, e, lapsed);
    }
  }

  lemma ClockStepKeeps(f: Fleet, e: Event, lapsed: set<Place>)
    requires FleetOK(f, lapsed) && Enabled(f, e) && (e.Tick? || e.Sweep?)
    ensures FleetOK(Step(f, e), lapsed)
  {
    match e
    case Tick(elapsed) => TickKeeps(f, elapsed, lapsed);
    case Sweep(g) => SweepKeeps(f, g, lapsed);
  }

  lemma ConnectionStepKeeps(f: Fleet, e: Event, lapsed: set<Place>)
    requires FleetOK(f, lapsed) && Enabled(f, e)
    requires e.Connect? || e.LateRefresh? || e.Close? || e.Unregister? || e.Pump?
    ensures FleetOK(Step(f, e), lapsed)
  {
    match e
    case Connect(g, id, user, born, meta) => ConnectKeeps(f, g, id, user, born, meta, lapsed);
    case LateRefresh(g, user, id) => LateRefreshKeeps(f, g, user, id, lapsed);
    case Close(g, id) => CloseKeeps(f, g, id, lapsed);
    case Unregister(g, id) => UnregisterKeeps(f, g, id, lapsed);
    case Pump(g, id) => PumpKeeps(f, g, id, lapsed);
  }

  lemma PushStepKeeps(f: Fleet, e: Event, lapsed: set<Place>)
    requires FleetOK(f, lapsed) && Enabled(f, e)
    requires e.PushUser? || e.PushConnection? || e.Broadcast? || e.RepairIndex?
    ensures FleetOK(Step(f, e), lapsed)
  {
    match e
    case PushUser(g, user, ids, msg) => PushUserKeeps(f, g, user, ids, msg, lapsed);
    case PushConnection(g, id, msg) => PushConnectionKeeps(f, g, id, msg, lapsed);
    case Broadcast(g, msg) => BroadcastKeeps(f, g, msg, lapsed);
    case RepairIndex(user, ids) => RepairIndexKeeps(f, user, ids, lapsed);
  }
}
