/** What becomes of a connection over a run: it stays in its hub until it is unregistered,
    and only a close of its own or a sweep that finds it idle for too long closes it. */
module FleetActivity {
  import opened RouteModel
  import opened Redis
  import opened FrontierModel
  import S = RouteSpec
  import opened RouteReads
  import opened RouterSpec
  import opened RouterDelivery
  import R = RouteRuns
  import RouterAccounting
  import opened FleetRuns
  import F = FleetTheorems

  /** The events that are about the connection itself. */
  predicate Concerns(e: Event, g: string, id: string) {
    e == Close(g, id) || e == Unregister(g, id) || e == Activity(g, id)
  }

  /** A sweep of its gateway that finds the connection idle for the timeout. */
  predicate SweptIdle(f: Fleet, e: Event, g: string, id: string)
    requires g in f.world.hubs && id in f.world.hubs[g] && g in f.confs
  {
    e == Sweep(g) && f.world.db.now - f.world.hubs[g][id].lastActive >= f.confs[g].timeout
  }

  /** `c` is the connection some messages later. */
  predicate SameBut(c: ConnState, c': ConnState, closes: bool) {
    c'.userID == c.userID && c'.lastActive == c.lastActive && (c'.closed <==> c.closed || closes)
  }

  predicate OnlyQueues(hubs: map<string, Hub>, hubs': map<string, Hub>, g: string, id: string)
    requires g in hubs && id in hubs[g]
  {
    g in hubs' && id in hubs'[g] && SameBut(hubs[g][id], hubs'[g][id], false)
  }

  lemma PushUserOnlyQueues(w: World, at: string, user: string, ids: seq<string>, msg: Message, g: string, id: string)
    requires at in w.hubs && Keyed(w.db) && Enumerates(ids, Members(w.db, user))
    requires g in w.hubs && id in w.hubs[g]
    ensures OnlyQueues(w.hubs, RouteUser(w, at, user, ids, msg).0.hubs, g, id)
  {
    var places := RouterAccounting.NoFalseNorDoubleDelivery(w, at, user, ids, msg);
  }

  lemma PushConnectionOnlyQueues(w: World, at: string, x: string, msg: Message, g: string, id: string)
    requires at in w.hubs && Keyed(w.db) && g in w.hubs && id in w.hubs[g]
    ensures OnlyQueues(w.hubs, RouteConnection(w, at, x, msg).world.hubs, g, id)
  {
    RouterAccounting.RouteConnectionOnce(w, at, x, msg);
  }

  /** What one event does to a connection it is not about. */
  lemma StepConnection(f: Fleet, e: Event, g: string, id: string)
    requires Shape(f) && Enabled(f, e) && g in f.world.hubs && id in f.world.hubs[g] && !Concerns(e, g, id)
    ensures var (hubs, hubs') := (f.world.hubs, Step(f, e).world.hubs);
            && g in hubs' && id in hubs'[g]
            && SameBut(hubs[g][id], hubs'[g][id], SweptIdle(f, e, g, id))
    ensures Step(f, e).confs == f.confs
  {
    match e
    case PushUser(at, user, ids, msg) => PushUserOnlyQueues(f.world, at, user, ids, msg, g, id);
    case PushConnection(at, x, msg) => PushConnectionOnlyQueues(f.world, at, x, msg, g, id);
    case _ =>
  }

  /** An activity stamps the connection and leaves it open or closed; a close closes it; an
      unregistration takes it out of the hub. */
  lemma StepConcerned(f: Fleet, e: Event, g: string, id: string)
    requires Shape(f) && Enabled(f, e) && Concerns(e, g, id)
    ensures var (c, hubs') := (f.world.hubs[g][id], Step(f, e).world.hubs);
            && (e == Activity(g, id) ==> id in hubs'[g] && hubs'[g][id] == c.(lastActive := f.world.db.now))
            && (e == Close(g, id) ==> id in hubs'[g] && hubs'[g][id] == c.(closed := true))
            && (e == Unregister(g, id) ==> id !in hubs'[g])
  {
  }

  /** In every run, while no event concerns a connection, it is in its hub as it was, and is
      closed iff it was or a sweep in between found it idle for the timeout. */
  lemma {:induction false} UntouchedConnection(
      states: seq<Fleet>, events: seq<Event>, i: nat, k: nat, g: string, id: string)
    requires F.IsRun(states, events) && i <= k < |states|
    requires g in states[i].world.hubs && id in states[i].world.hubs[g] && g in states[i].confs
    requires forall j :: i <= j < k ==> !Concerns(events[j], g, id)
    ensures states[k].confs == states[i].confs && g in states[k].world.hubs && id in states[k].world.hubs[g]
    ensures var (c, timeout) := (states[i].world.hubs[g][id], states[i].confs[g].timeout);
            SameBut(c, states[k].world.hubs[g][id], SweptBetween(states, events, i, k, g, c.lastActive, timeout))
    decreases k
  {
    if i < k {
      UntouchedConnection(states, events, i, k - 1, g, id);
      assert F.LeadsAt(states, events, k - 1);
      StepConnection(states[k - 1], events[k - 1], g, id);
      var (active, timeout) := (states[i].world.hubs[g][id].lastActive, states[i].confs[g].timeout);
      SweptBetweenSteps(states, events, i, k, g, active, timeout);
    }
  }

  /** Some sweep of `g` came when `active` was `timeout` ago. */
  ghost predicate SweptBetween(
      states: seq<Fleet>, events: seq<Event>, i: nat, k: nat, g: string, active: int, timeout: int)
    requires |states| == |events| + 1 && k < |states|
  {
    exists j :: i <= j < k && events[j] == Sweep(g) && states[j].world.db.now - active >= timeout
  }

  lemma SweptBetweenSteps(states: seq<Fleet>, events: seq<Event>, i: nat, k: nat, g: string, active: int, timeout: int)
    requires |states| == |events| + 1 && i < k < |states|
    ensures SweptBetween(states, events, i, k, g, active, timeout) <==>
            || SweptBetween(states, events, i, k - 1, g, active, timeout)
            || (events[k - 1] == Sweep(g) && states[k - 1].world.db.now - active >= timeout)
  {
  }

  /** In every run a connection that is touched before each timeout is over is never closed by
      a sweep: at any time less than the timeout after an activity it is open iff it was open
      then. */
  lemma ActiveStaysOpen(states: seq<Fleet>, events: seq<Event>, i: nat, k: nat, g: string, id: string)
    requires F.IsRun(states, events) && i < k < |states| && events[i] == Activity(g, id)
    requires forall j :: i < j < k ==> !Concerns(events[j], g, id)
    requires g in states[i].confs && forall j :: i < j < k ==>
               states[j].world.db.now < states[i].world.db.now + states[i].confs[g].timeout
    ensures g in states[i].world.hubs && id in states[i].world.hubs[g]
    ensures g in states[k].world.hubs && id in states[k].world.hubs[g]
    ensures states[k].world.hubs[g][id].closed <==> states[i].world.hubs[g][id].closed
  {
    assert F.LeadsAt(states, events, i);
    StepConcerned(states[i], events[i], g, id);
    UntouchedConnection(states, events, i + 1, k, g, id);
  }

  /** Without failures an unregistration leaves neither record nor entry of the connection and
      keeps every other record. */
  lemma UnregisterCleans(f: Fleet, g: string, id: string)
    requires Shape(f) && Enabled(f, Unregister(g, id)) && f.world.db.script == [] && id != ""
    requires f.world.hubs[g][id].userID != ""
    ensures var (db, db', user) := (f.world.db, Step(f, Unregister(g, id)).world.db, f.world.hubs[g][id].userID);
            && db'.facts == db.facts - {id}
            && forall other ::
              Members(db', other) == if other == user then Members(db, other) - {id} else Members(db, other)
  {
    CleanupExact(f.world.db, f.world.hubs[g][id].userID, id);
  }

  /** Without failures a connection with a user has a readable route to its gateway from the
      moment it is registered; one without user has none. */
  lemma ConnectRoutes(f: Fleet, g: string, id: string, user: string, born: int, meta: ConnectionMeta)
    requires Shape(f) && Enabled(f, Connect(g, id, user, born, meta)) && f.world.db.script == []
    ensures var w' := Step(f, Connect(g, id, user, born, meta)).world;
            && id in w'.hubs[g] && w'.hubs[g][id] == ConnState(user, [], false, born)
            && (user == "" ==> w'.db == f.world.db)
            && (user != "" ==> F.Routable(w', g, id, user))
  {
    assert id != "";
    if user != "" { R.RegisterQuiet(f.confs[g].store, f.world.db, HubMeta(g, id, user, born, meta)); }
  }

  /** Connections without user never touch the store. */
  lemma NobodyLeavesStoreAlone(
      conf: S.StoreConf, hub: Hub, db: Db, id: string, c: ConnState, meta: ConnectionMeta, now: int)
    ensures c.userID == "" ==> Joined(conf, hub, db, id, c, meta) == (hub[id := c], db)
    ensures id in hub && hub[id].userID == "" ==>
              Touched(conf, hub, db, id, now) == (hub[id := hub[id].(lastActive := now)], db)
    ensures id in hub && hub[id].userID == "" ==> Departed(hub, db, id) == (hub - {id}, db)
    ensures id !in hub ==> Departed(hub, db, id) == (hub, db)
  {
  }
}
