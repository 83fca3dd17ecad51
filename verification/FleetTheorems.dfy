/** What holds at every moment of every run of the fleet, and the condition on the
    gateways' settings that it needs. */
module FleetTheorems {
  import opened RouteModel
  import opened Redis
  import opened FrontierModel
  import S = RouteSpec
  import opened RouteReads
  import R = RouteRuns
  import opened RouterSpec
  import opened RouterDelivery
  import T = RouterTheorems
  import opened FleetRuns
  import opened FleetInvariant

  /** Gateways that have just started over an empty Redis. */
  ghost predicate Started(f: Fleet) {
    && Shape(f) && R.Empty(f.world.db)
    && (forall g :: g in f.confs ==> f.world.hubs[g] == map[] && f.swept[g] == f.world.db.now)
  }

  ghost predicate Leads(f: Fleet, e: Event, f': Fleet) { Shape(f) && Enabled(f, e) && f' == Step(f, e) }

  /** `states` is a run of `events`. */
  ghost predicate IsRun(states: seq<Fleet>, events: seq<Event>) {
    |states| == |events| + 1 && forall i :: 0 <= i < |events| ==> LeadsAt(states, events, i)
  }

  ghost predicate LeadsAt(states: seq<Fleet>, events: seq<Event>, i: nat)
    requires i < |events| && |states| == |events| + 1
  {
    Leads(states[i], events[i], states[i + 1])
  }

  /** A run of a started fleet whose route TTLs are large enough. */
  ghost predicate IsTimedRun(states: seq<Fleet>, events: seq<Event>) {
    IsRun(states, events) && Started(states[0]) && Sized(states[0]) && IndexSized(states[0])
  }

  /** The closed connections that were touched after their time, up to the k-th state. */
  function LapsedIn(states: seq<Fleet>, events: seq<Event>, k: nat): set<Place>
    requires |states| == |events| + 1 && k < |states|
  {
    if k == 0 then {} else LapsedBy(states[k - 1], events[k - 1], LapsedIn(states, events, k - 1))
  }

  lemma {:induction false} LapsedExact(states: seq<Fleet>, events: seq<Event>, k: nat, g: string, id: string)
    requires |states| == |events| + 1 && k < |states|
    ensures (g, id) in LapsedIn(states, events, k) <==>
            exists i :: 0 <= i < k && events[i] == Activity(g, id) && Late(states[i], events[i])
  {
    if k > 0 {
      LapsedExact(states, events, k - 1, g, id);
      assert Late(states[k - 1], events[k - 1]) ==>
          events[k - 1] == Activity(events[k - 1].g, events[k - 1].id);
    }
  }

  lemma {:induction false} RunFromOKKeeps(states: seq<Fleet>, events: seq<Event>, k: nat)
    requires IsRun(states, events) && FleetOK(states[0], {}) && k < |states|
    ensures FleetOK(states[k], LapsedIn(states, events, k))
  {
    if k > 0 {
      RunFromOKKeeps(states, events, k - 1);
      assert LeadsAt(states, events, k - 1);
      LeadKeeps(states[k - 1], events[k - 1], states[k], LapsedIn(states, events, k - 1));
    }
  }

  lemma StartIsOK(f: Fleet)
    requires Started(f) && Sized(f) && IndexSized(f)
    ensures FleetOK(f, {})
  {
  }

  /** The invariant of every event holds throughout every timed run. */
  lemma RunKeeps(states: seq<Fleet>, events: seq<Event>, k: nat)
    requires IsTimedRun(states, events) && k < |states|
    ensures FleetOK(states[k], LapsedIn(states, events, k))
  {
    StartIsOK(states[0]);
    RunFromOKKeeps(states, events, k);
  }

  lemma LeadKeeps(f: Fleet, e: Event, f': Fleet, lapsed: set<Place>)
    requires FleetOK(f, lapsed) && Leads(f, e, f')
    ensures FleetOK(f', LapsedBy(f, e, lapsed))
  {
    StepKeeps(f, e, lapsed);
  }

  // ----- every connection stays routable -----

  /** The connection's route is readable, names its gateway and is in its user's set. */
  predicate Routable(w: World, g: string, id: string, user: string) {
    !Blank(id) && Owns(w.db, user, id) && S.Seen(w.db, id).value.gatewayAddr == g && id in Members(w.db, user)
  }

  ghost predicate AllRoutable(w: World) {
    forall g, id :: g in w.hubs && id in w.hubs[g] && Served(w.hubs[g][id]) ==> Routable(w, g, id, w.hubs[g][id].userID)
  }

  lemma OKIsRoutable(f: Fleet, lapsed: set<Place>)
    requires FleetOK(f, lapsed)
    ensures AllRoutable(f.world)
  {
    forall g, id | g in f.world.hubs && id in f.world.hubs[g] && Served(f.world.hubs[g][id])
      ensures Routable(f.world, g, id, f.world.hubs[g][id].userID)
    {
      CoveredIsRoutable(f, lapsed, g, id);
    }
  }

  /** At every moment of every run, each open connection has an unexpired route fact
      naming its gateway and an entry in its user's unexpired index set. */
  lemma OpenConnectionsStayRoutable(states: seq<Fleet>, events: seq<Event>, k: nat)
    requires IsTimedRun(states, events) && k < |states|
    ensures AllRoutable(states[k].world)
  {
    RunKeeps(states, events, k);
    OKIsRoutable(states[k], LapsedIn(states, events, k));
  }

  /** So has each closed connection that still waits to be unregistered, until it has been
      idle for timeout plus interval, unless it was touched after that. */
  lemma ClosedConnectionsStayRoutable(states: seq<Fleet>, events: seq<Event>, k: nat, g: string, id: string)
    requires IsTimedRun(states, events) && k < |states|
    requires var f := states[k];
             && g in f.world.hubs && id in f.world.hubs[g] && g in f.confs && f.world.hubs[g][id].userID != ""
             && f.world.db.now < f.world.hubs[g][id].lastActive + MaxIdle(f.confs[g])
    requires forall i :: 0 <= i < k && events[i] == Activity(g, id) ==> !Late(states[i], events[i])
    ensures Routable(states[k].world, g, id, states[k].world.hubs[g][id].userID)
  {
    var lapsed := LapsedIn(states, events, k);
    RunKeeps(states, events, k);
    LapsedExact(states, events, k, g, id);
    assert Covered(states[k], lapsed, g, id);
    CoveredIsRoutable(states[k], lapsed, g, id);
  }

  lemma OKAgrees(f: Fleet, lapsed: set<Place>, user: string)
    requires FleetOK(f, lapsed) && user != ""
    ensures T.Agree(f.world, user)
  {
    OKIsRoutable(f, lapsed);
    RoutableAgree(f.world, user);
  }

  lemma RoutableAgree(w: World, user: string)
    requires AllRoutable(w) && OneHome(w) && user != ""
    ensures T.Agree(w, user)
  {
    assert forall g, c :: g in w.hubs && c in w.hubs[g] && w.hubs[g][c].userID == user && !w.hubs[g][c].closed ==>
        Served(w.hubs[g][c]);
  }

  /** At every moment of every run, a push from any gateway puts exactly one copy on
      each open, non-full connection of the user anywhere in the fleet and nothing on
      any other connection, and reports their number. */
  lemma PushReachesEveryOpenConnection(
      states: seq<Fleet>, events: seq<Event>, k: nat, at: string, user: string, ids: seq<string>, msg: Message)
    requires IsTimedRun(states, events) && k < |states|
    requires user != "" && Enumerates(ids, Members(states[k].world.db, user))
    requires at in states[k].world.hubs && Keyed(states[k].world.db)
    ensures var w := states[k].world;
            var (w', r) := RouteUser(w, at, user, ids, msg);
            && w'.hubs == T.DeliverToUser(w.hubs, user, msg)
            && (T.Reachable(w.hubs, user) != {} ==>
                r == PushResult(user, true, StatusSuccess, |T.Reachable(w.hubs, user)|, ""))
            && (T.Reachable(w.hubs, user) == {} ==> r.status != StatusSuccess && r.connectionCount == 0)
  {
    RunKeeps(states, events, k);
    OKAgrees(states[k], LapsedIn(states, events, k), user);
    T.ExactDelivery(states[k].world, at, user, ids, msg);
  }

  // ----- runs to build counterexamples from -----

  lemma ExtendRun(states: seq<Fleet>, events: seq<Event>, e: Event, f: Fleet)
    returns (states': seq<Fleet>, events': seq<Event>)
    requires IsRun(states, events) && Leads(states[|events|], e, f)
    ensures IsRun(states', events') && states'[0] == states[0] && states'[|events'|] == f
  {
    states', events' := states + [f], events + [e];
    forall i | 0 <= i < |events'| ensures LeadsAt(states', events', i) {
      assert i < |events| ==> LeadsAt(states, events, i);
    }
  }

  /** The gateways of `gs` have just swept, the others have not. */
  function SweptBy(f: Fleet, gs: set<string>): Fleet {
    f.(swept := map g | g in f.swept :: if g in gs then f.world.db.now else f.swept[g])
  }

  /** `f` some time later, with the gateways of `gs` just swept. */
  function Aged(f: Fleet, gs: set<string>, elapsed: nat): Fleet {
    SweptBy(f.(world := f.world.(db := Redis.Tick(f.world.db, elapsed))), gs)
  }

  /** Sweeping finds nothing to close for the next `elapsed` nanoseconds. */
  ghost predicate Idle(f: Fleet, gs: set<string>, elapsed: nat)
    requires Shape(f)
  {
    forall g, c :: g in gs && g in f.confs && c in f.world.hubs[g] ==>
      Alive(f.world.hubs[g][c], f.world.db.now + elapsed, f.confs[g].timeout)
  }

  lemma {:induction false} SweepEach(f: Fleet, gs: set<string>, states: seq<Fleet>, events: seq<Event>)
    returns (states': seq<Fleet>, events': seq<Event>)
    requires Shape(f) && gs <= f.confs.Keys && Idle(f, gs, 0)
    requires IsRun(states, events) && states[|events|] == f
    ensures IsRun(states', events') && states'[0] == states[0] && states'[|events'|] == SweptBy(f, gs)
  {
    if gs == {} {
      states', events' := states, events;
      assert SweptBy(f, {}).swept == f.swept;
    } else {
      var g :| g in gs;
      states', events' := SweepEach(f, gs - {g}, states, events);
      SweepOne(f, gs - {g}, g);
      states', events' := ExtendRun(states', events', Sweep(g), SweptBy(f, gs));
      assert gs - {g} + {g} == gs;
    }
  }

  lemma SweepOne(f: Fleet, gs: set<string>, g: string)
    requires Shape(f) && g in f.confs && Idle(f, {g}, 0)
    ensures Leads(SweptBy(f, gs), Sweep(g), SweptBy(f, gs + {g}))
  {
    var hub := f.world.hubs[g];
    assert SweepHub(hub, f.world.db.now, f.confs[g].timeout) == hub;
    assert f.world.hubs[g := hub] == f.world.hubs;
    assert SweptBy(f, gs).swept[g := f.world.db.now] == SweptBy(f, gs + {g}).swept;
  }

  /** Time passes in steps of one, `gs` sweeping after each, as long as nobody is late. */
  lemma {:induction false} Wait(f: Fleet, gs: set<string>, elapsed: nat, states: seq<Fleet>, events: seq<Event>)
    returns (states': seq<Fleet>, events': seq<Event>)
    requires Shape(f) && gs <= f.confs.Keys && Idle(f, gs, elapsed)
    requires forall g :: g in gs ==> f.swept[g] == f.world.db.now
    requires forall g :: g in f.confs && g !in gs ==> f.world.db.now + elapsed <= f.swept[g] + f.confs[g].interval
    requires IsRun(states, events) && states[|events|] == f
    ensures IsRun(states', events') && states'[0] == states[0] && states'[|events'|] == Aged(f, gs, elapsed)
  {
    if elapsed == 0 {
      states', events' := states, events;
      assert Redis.Tick(f.world.db, 0) == f.world.db;
      assert Aged(f, gs, 0).swept == f.swept;
    } else {
      states', events' := Wait(f, gs, elapsed - 1, states, events);
      states', events' := WaitOne(f, gs, elapsed - 1, states', events');
    }
  }

  lemma WaitOne(f: Fleet, gs: set<string>, elapsed: nat, states: seq<Fleet>, events: seq<Event>)
    returns (states': seq<Fleet>, events': seq<Event>)
    requires Shape(f) && gs <= f.confs.Keys && Idle(f, gs, elapsed + 1)
    requires forall g :: g in f.confs && g !in gs ==> f.world.db.now + elapsed + 1 <= f.swept[g] + f.confs[g].interval
    requires IsRun(states, events) && states[|events|] == Aged(f, gs, elapsed)
    ensures IsRun(states', events') && states'[0] == states[0] && states'[|events'|] == Aged(f, gs, elapsed + 1)
  {
    var ticked := OneTick(f, gs, elapsed);
    states', events' := ExtendRun(states, events, Tick(1), ticked);
    states', events' := SweepEach(ticked, gs, states', events');
  }

  lemma OneTick(f: Fleet, gs: set<string>, elapsed: nat) returns (ticked: Fleet)
    requires Shape(f) && gs <= f.confs.Keys && Idle(f, gs, elapsed + 1)
    requires forall g :: g in f.confs && g !in gs ==> f.world.db.now + elapsed + 1 <= f.swept[g] + f.confs[g].interval
    ensures Leads(Aged(f, gs, elapsed), Tick(1), ticked)
    ensures Shape(ticked) && ticked.confs == f.confs && Idle(ticked, gs, 0)
    ensures SweptBy(ticked, gs) == Aged(f, gs, elapsed + 1)
  {
    var aged := Aged(f, gs, elapsed);
    forall g | g in f.confs ensures aged.world.db.now + 1 <= aged.swept[g] + f.confs[g].interval {
      assert 1 <= f.confs[g].interval;
    }
    ticked := Step(aged, Tick(1));
    assert SweptBy(ticked, gs).swept == Aged(f, gs, elapsed + 1).swept;
  }

  // ----- the settings are exactly large enough -----

  ghost predicate AlwaysRoutable(f: Fleet) {
    forall states: seq<Fleet>, events: seq<Event> :: IsRun(states, events) && states[0] == f ==>
      AllRoutable(states[|events|].world)
  }

  lemma LostRoute(states: seq<Fleet>, events: seq<Event>)
    requires IsRun(states, events) && !AllRoutable(states[|events|].world)
    ensures !AlwaysRoutable(states[0])
  {
  }

  /** One connection "c" of "user", fresh, is all there is; its route dies by `expiry`. */
  ghost predicate Lone(f: Fleet, g: string, expiry: int) {
    && Shape(f) && g in f.confs
    && (forall h :: h in f.confs ==> f.swept[h] == f.world.db.now)
    && f.world.hubs[g] == map["c" := ConnState("user", [], false, f.world.db.now)]
    && (forall h :: h in f.confs && h != g ==> f.world.hubs[h] == map[])
    && ("c" in f.world.db.facts ==>
        || f.world.db.facts["c"].expiry <= expiry
        || ("user" in f.world.db.index && f.world.db.index["user"].expiry.Some?
            && f.world.db.index["user"].expiry.value <= expiry))
  }

  /** It survives a sweep just before its timeout and is open until the next one is due. */
  lemma LoneLosesRoute(f: Fleet, g: string, expiry: int, states: seq<Fleet>, events: seq<Event>)
    requires Lone(f, g, expiry) && expiry < f.world.db.now + MaxIdle(f.confs[g])
    requires IsRun(states, events) && states[|events|] == f
    ensures !AlwaysRoutable(states[0])
  {
    var states', events', w := LoneWaits(f, g, expiry, states, events);
    LoneDies(f, g, expiry, w);
    LostRoute(states', events');
  }

  lemma LoneWaits(f: Fleet, g: string, expiry: int, states: seq<Fleet>, events: seq<Event>)
    returns (states': seq<Fleet>, events': seq<Event>, w: World)
    requires Lone(f, g, expiry)
    requires IsRun(states, events) && states[|events|] == f
    ensures IsRun(states', events') && states'[0] == states[0] && states'[|events'|].world == w
    ensures w == f.world.(db := Redis.Tick(f.world.db, MaxIdle(f.confs[g]) - 1))
  {
    var timeout: int, interval: int := f.confs[g].timeout, f.confs[g].interval;
    var all, others := f.confs.Keys, f.confs.Keys - {g};
    states', events' := Wait(f, all, timeout - 1, states, events);
    var f1 := Aged(f, all, timeout - 1);
    states', events' := Wait(f1, others, interval, states', events');
    w := Aged(f1, others, interval).world;
  }

  lemma LoneDies(f: Fleet, g: string, expiry: int, w: World)
    requires Lone(f, g, expiry) && expiry <= w.db.now && w == f.world.(db := w.db)
    requires w.db == f.world.db.(now := w.db.now)
    ensures !AllRoutable(w)
  {
    assert g in w.hubs && "c" in w.hubs[g] && Served(w.hubs[g]["c"]) && w.hubs[g]["c"].userID == "user";
    assert !Routable(w, g, "c", "user");
  }

  /** With a shorter route TTL some run leaves an open connection without route. */
  lemma ShortTtlLosesRoute(f: Fleet, g: string)
    requires Started(f) && g in f.confs && f.confs[g].store.ttl < MaxIdle(f.confs[g])
    ensures !AlwaysRoutable(f)
  {
    var f1 := FirstConnection(f, g);
    var states, events := ExtendRun([f], [], Connect(g, "c", "user", f.world.db.now, R.SampleMeta("c")), f1);
    LoneLosesRoute(f1, g, f.world.db.now + f.confs[g].store.ttl, states, events);
  }

  lemma FirstConnection(f: Fleet, g: string) returns (f1: Fleet)
    requires Started(f) && g in f.confs
    ensures Leads(f, Connect(g, "c", "user", f.world.db.now, R.SampleMeta("c")), f1)
    ensures Lone(f1, g, f.world.db.now + f.confs[g].store.ttl) && f1.world.db.script == []
    ensures f1.world.db.now == f.world.db.now && f1.confs == f.confs
    ensures f1.world.db.facts.Keys == Members(f1.world.db, "user") == {"c"}
  {
    assert !Blank("c") by { assert !IsSpace("c"[0]); }
    f1 := Joins(f, g, "c");
  }

  lemma Joins(f: Fleet, g: string, id: string) returns (f1: Fleet)
    requires Shape(f) && f.world.db.script == [] && g in f.confs && !Blank(id)
    requires id !in f.world.db.facts && Homeless(f.world.hubs, id) && f.world.hubs[g] == map[]
    ensures Leads(f, Connect(g, id, "user", f.world.db.now, R.SampleMeta("c")), f1) && Shape(f1)
    ensures var c := ConnState("user", [], false, f.world.db.now);
            f1 == f.(world := At(f.world, g,
                                 (map[id := c], R.Registered(f.confs[g].store, f.world.db, FirstMeta(f, g, id)))))
  {
    R.RegisterQuiet(f.confs[g].store, f.world.db, FirstMeta(f, g, id));
    f1 := Step(f, Connect(g, id, "user", f.world.db.now, R.SampleMeta("c")));
  }

  function FirstMeta(f: Fleet, g: string, id: string): ConnectionMeta {
    HubMeta(g, id, "user", f.world.db.now, R.SampleMeta("c"))
  }

  /** With an index set that another gateway renews for too short a time, some run leaves
      an open connection without index entry: a second connection of its user appears on
      that gateway and goes again. */
  lemma ShortIndexLosesRoute(f: Fleet, g: string, h: string)
    requires Started(f) && g in f.confs && h in f.confs && g != h
    requires f.confs[h].store.ttl * 2 < MaxIdle(f.confs[g])
    ensures !AlwaysRoutable(f)
  {
    var f1 := FirstConnection(f, g);
    var states, events := ExtendRun([f], [], Connect(g, "c", "user", f.world.db.now, R.SampleMeta("c")), f1);
    var f2, f3, f4 := VisitorComesAndGoes(f1, g, h);
    states, events := ExtendRun(states, events, Connect(h, "d", "user", f1.world.db.now, R.SampleMeta("c")), f2);
    states, events := ExtendRun(states, events, Close(h, "d"), f3);
    states, events := ExtendRun(states, events, Unregister(h, "d"), f4);
    LoneLosesRoute(f4, g, f.world.db.now + f.confs[h].store.ttl * 2, states, events);
  }

  lemma VisitorComesAndGoes(f: Fleet, g: string, h: string) returns (f1: Fleet, f2: Fleet, f3: Fleet)
    requires g in f.confs && Lone(f, g, f.world.db.now + f.confs[g].store.ttl) && h in f.confs && g != h
    requires f.world.db.script == [] && f.world.db.facts.Keys == Members(f.world.db, "user") == {"c"}
    ensures Leads(f, Connect(h, "d", "user", f.world.db.now, R.SampleMeta("c")), f1)
    ensures Leads(f1, Close(h, "d"), f2) && Leads(f2, Unregister(h, "d"), f3)
    ensures Lone(f3, g, f.world.db.now + f.confs[h].store.ttl * 2) && f3.confs == f.confs
    ensures f3.world.db.now == f.world.db.now
  {
    var db' := S.Cleanup(R.Registered(f.confs[h].store, f.world.db, FirstMeta(f, h, "d")), "user", "d").0;
    VisitorStore(f.world.db, f.confs[h].store, FirstMeta(f, h, "d"));
    StaysLone(f, g, db', f.world.db.now + f.confs[g].store.ttl, f.world.db.now + f.confs[h].store.ttl * 2);
    assert !Blank("d") by { assert !IsSpace("d"[0]); }
    f1, f2, f3 := Visits(f, h, "d");
  }

  lemma Visits(f: Fleet, g: string, id: string) returns (f1: Fleet, f2: Fleet, f3: Fleet)
    requires Shape(f) && f.world.db.script == [] && g in f.confs && !Blank(id)
    requires id !in f.world.db.facts && Homeless(f.world.hubs, id) && f.world.hubs[g] == map[]
    ensures Leads(f, Connect(g, id, "user", f.world.db.now, R.SampleMeta("c")), f1)
    ensures Leads(f1, Close(g, id), f2) && Leads(f2, Unregister(g, id), f3)
    ensures var db' := S.Cleanup(R.Registered(f.confs[g].store, f.world.db, FirstMeta(f, g, id)), "user", id).0;
            f3 == f.(world := f.world.(db := db'))
  {
    f1 := Joins(f, g, id);
    f2, f3 := Goes(f1, g, id);
    EmptyAgain(f.world.hubs, g, id, ConnState("user", [], false, f.world.db.now));
  }

  lemma EmptyAgain(hubs: map<string, Hub>, g: string, id: string, c: ConnState)
    requires g in hubs && hubs[g] == map[]
    ensures hubs[g := map[id := c]][g := map[id := c] - {id}] == hubs
  {
    assert map[id := c] - {id} == map[];
  }

  lemma StaysLone(f: Fleet, g: string, db': Db, expiry: int, expiry': int)
    requires Lone(f, g, expiry) && Keyed(db') && db'.now == f.world.db.now
    requires "user" in db'.index && db'.index["user"].expiry == Some(expiry')
    ensures Lone(f.(world := f.world.(db := db')), g, expiry')
  {
  }

  lemma Goes(f: Fleet, g: string, id: string) returns (f1: Fleet, f2: Fleet)
    requires Shape(f) && g in f.confs && id in f.world.hubs[g] && f.world.hubs[g][id].userID != ""
    ensures Leads(f, Close(g, id), f1) && Leads(f1, Unregister(g, id), f2)
    ensures f2 == f.(world := At(f.world, g,
                                 (f.world.hubs[g] - {id}, S.Cleanup(f.world.db, f.world.hubs[g][id].userID, id).0)))
  {
    var hub := f.world.hubs[g];
    f1 := Step(f, Close(g, id));
    assert hub[id := hub[id].(closed := true)] - {id} == hub - {id};
    f2 := Step(f1, Unregister(g, id));
  }

  lemma VisitorStore(db: Db, conf: S.StoreConf, m: ConnectionMeta)
    requires db.script == [] && Members(db, "user") == {"c"} && db.facts.Keys == {"c"}
    requires m.userID == "user" && m.connectionID == "d" && m.gatewayAddr != ""
    ensures var db' := S.Cleanup(R.Registered(conf, db, m), "user", "d").0;
            && db'.now == db.now && db'.facts == db.facts && db'.script == []
            && "user" in db'.index && db'.index["user"].expiry == Some(db.now + conf.ttl * 2)
  {
    var db1 := R.Registered(conf, db, m);
    CleanupDrops(db1, "user", "d");
    assert HasSet(db1, "user") && "c" in db1.index["user"].members;
    assert db1.facts - {"d"} == db.facts;
  }

  /** In every run of every fleet each open connection is routable at every moment, if and
      only if at each gateway the route TTL covers the longest idle stay, timeout plus
      sweep interval, and twice the TTL of any gateway covers that of any other. */
  lemma RouteTtlIff(f: Fleet)
    requires Started(f)
    ensures AlwaysRoutable(f) <==> Sized(f) && IndexSized(f)
  {
    if Sized(f) && IndexSized(f) {
      forall states: seq<Fleet>, events: seq<Event> | IsRun(states, events) && states[0] == f
        ensures AllRoutable(states[|events|].world)
      {
        OpenConnectionsStayRoutable(states, events, |events|);
      }
    } else if g :| g in f.confs && f.confs[g].store.ttl < MaxIdle(f.confs[g]) {
      ShortTtlLosesRoute(f, g);
    } else {
      var g, h :| g in f.confs && h in f.confs && f.confs[h].store.ttl * 2 < MaxIdle(f.confs[g]);
      ShortIndexLosesRoute(f, g, h);
    }
  }
}
