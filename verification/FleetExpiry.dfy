/** How long a route lives once nothing writes it any more: the other side of the choice
    of the route TTL. Users of a gateway that is gone are offline after that time. */
module FleetExpiry {
  import opened RouteModel
  import opened Redis
  import opened FrontierModel
  import S = RouteSpec
  import opened RouteReads
  import opened RouterSpec
  import RouterSafety
  import RouteFailures
  import opened FleetRuns
  import F = FleetTheorems

  /** The events that may write the record of `id`, and the gateway that does. */
  predicate Touches(e: Event, id: string) {
    match e
    case Connect(_, x, _, _, _) => x == id
    case Activity(_, x) => x == id
    case LateRefresh(_, _, x) => x == id
    case _ => false
  }

  /** An event leaves a record as it is, drops it, or is the one to write it, for the TTL of
      its gateway. */
  lemma StepRecord(f: Fleet, e: Event, id: string)
    requires Shape(f) && Enabled(f, e)
    ensures var (db, db') := (f.world.db, Step(f, e).world.db);
            id in db'.facts ==>
              || (id in db.facts && db'.facts[id] == db.facts[id])
              || (&& Touches(e, id) && e.g in f.confs
                  && db'.facts[id].expiry == db.now + f.confs[e.g].store.ttl)
  {
    var db := f.world.db;
    match e
    case Connect(g, x, user, born, meta) =>
      RouteFailures.RegisterFacts(f.confs[g].store, db, HubMeta(g, x, user, born, meta));
    case Activity(g, x) => RefreshRecord(f.confs[g].store, db, f.world.hubs[g][x].userID, x, id);
    case LateRefresh(g, user, x) => RefreshRecord(f.confs[g].store, db, user, x, id);
    case Unregister(g, x) => S.CleanupFacts(db, f.world.hubs[g][x].userID, x);
    case PushUser(g, user, ids, msg) => RouterSafety.RouteUserNeverCleansLive(f.world, g, user, ids, msg);
    case PushConnection(g, x, msg) => RouterSafety.RouteConnectionNeverCleansLive(f.world, g, x, msg);
    case RepairIndex(user, ids) => S.SweepKeepsFacts(db, user, ids);
    case _ =>
  }

  lemma RefreshRecord(conf: S.StoreConf, db: Db, user: string, x: string, id: string)
    requires Keyed(db)
    ensures var db' := S.Refresh(conf, db, user, x).0;
            id in db'.facts ==>
              || (id in db.facts && db'.facts[id] == db.facts[id])
              || (x == id && db'.facts[id].expiry == db.now + conf.ttl)
  {
    S.GetOnlyReads(db, x);
    var (db1, got) := S.GetMeta(db, x);
    if got.Ok? {
      RouteFailures.RegisterFacts(conf, db1,
        S.Normalize(conf, db1.now, if user != "" then got.value.(userID := user) else got.value));
    }
  }

  lemma TimeGoesOn(f: Fleet, e: Event)
    requires Shape(f) && Enabled(f, e)
    ensures Step(f, e).confs == f.confs && f.world.db.now <= Step(f, e).world.db.now
  {
    var db := f.world.db;
    match e
    case Connect(g, x, user, born, meta) =>
      RouteFailures.RegisterFacts(f.confs[g].store, db, HubMeta(g, x, user, born, meta));
    case Activity(g, x) => RouteFailures.RefreshFacts(f.confs[g].store, db, f.world.hubs[g][x].userID, x);
    case LateRefresh(g, user, x) => RouteFailures.RefreshFacts(f.confs[g].store, db, user, x);
    case Unregister(g, x) => S.CleanupFacts(db, f.world.hubs[g][x].userID, x);
    case PushUser(g, user, ids, msg) => RouterSafety.RouteUserNeverCleansLive(f.world, g, user, ids, msg);
    case PushConnection(g, x, msg) => RouterSafety.RouteConnectionNeverCleansLive(f.world, g, x, msg);
    case RepairIndex(user, ids) => S.SweepKeepsFacts(db, user, ids);
    case _ =>
  }

  /** From the i-th to the k-th state nothing touches `id`. */
  ghost predicate Abandoned(states: seq<Fleet>, events: seq<Event>, i: nat, k: nat, id: string) {
    F.IsRun(states, events) && i <= k < |states| && forall j :: i <= j < k ==> !Touches(events[j], id)
  }

  lemma {:induction false} AbandonedRecordStays(states: seq<Fleet>, events: seq<Event>, i: nat, k: nat, id: string)
    requires Abandoned(states, events, i, k, id)
    ensures var (db, db') := (states[i].world.db, states[k].world.db);
            db.now <= db'.now && (id in db'.facts ==> id in db.facts && db'.facts[id] == db.facts[id])
    decreases k
  {
    if i < k {
      AbandonedRecordStays(states, events, i, k - 1, id);
      assert F.LeadsAt(states, events, k - 1);
      StepRecord(states[k - 1], events[k - 1], id);
      TimeGoesOn(states[k - 1], events[k - 1]);
    }
  }

  /** The record was last written by gateway `g` in the step after the i-th state. */
  ghost predicate LastWritten(states: seq<Fleet>, events: seq<Event>, i: nat, k: nat, g: string, id: string) {
    && i < k && Abandoned(states, events, i + 1, k, id)
    && Touches(events[i], id) && events[i].g == g && g in states[i].confs
    && id in states[i + 1].world.db.facts
    && states[i + 1].world.db.facts[id].expiry == states[i].world.db.now + states[i].confs[g].store.ttl
  }

  /** How long the gateway's routes live: connection timeout plus heartbeat interval, and a
      minute at least. */
  function Lifetime(conf: GatewayConf): int {
    if conf.timeout + conf.interval < 60_000_000_000 then 60_000_000_000 else conf.timeout + conf.interval
  }

  /** The gateway's settings come from its configuration. */
  ghost predicate Configured(conf: GatewayConf) {
    exists addr, timeout, interval :: conf == NewGateway(addr, timeout, interval)
  }

  /** In every run, a route whose record nobody drops is readable exactly for that time after
      the last write of its gateway. */
  lemma RouteLivesExactly(states: seq<Fleet>, events: seq<Event>, i: nat, k: nat, g: string, id: string)
    requires LastWritten(states, events, i, k, g, id) && Configured(states[i].confs[g]) && id != ""
    requires id in states[k].world.db.facts && states[k].world.db.facts[id].meta.gatewayAddr != ""
    ensures S.Seen(states[k].world.db, id).Some? <==>
            states[k].world.db.now < states[i].world.db.now + Lifetime(states[i].confs[g])
  {
    AbandonedRecordStays(states, events, i + 1, k, id);
  }

  /** In every run, a route is unreadable once that time is over, and no longer makes its user
      look online, whatever other events do. */
  lemma AbandonedRouteExpires(
      states: seq<Fleet>, events: seq<Event>, i: nat, k: nat, g: string, id: string, user: string)
    requires LastWritten(states, events, i, k, g, id) && Configured(states[i].confs[g])
    requires states[i].world.db.now + Lifetime(states[i].confs[g]) <= states[k].world.db.now
    ensures S.Seen(states[k].world.db, id).None? && id !in OwnedIds(states[k].world.db, user)
  {
    AbandonedRecordStays(states, events, i + 1, k, id);
  }

  // ----- a user nobody touches any more -----

  ghost predicate WritesBounded(f: Fleet, limit: int) {
    forall id :: id in f.world.db.facts ==> f.world.db.facts[id].expiry <= f.world.db.now + limit
  }

  /** Every record expires within the longest lifetime of the fleet's gateways. */
  lemma {:induction false} RecordsAreBounded(states: seq<Fleet>, events: seq<Event>, k: nat, limit: int)
    requires F.IsRun(states, events) && F.Started(states[0]) && k < |states|
    requires forall g :: g in states[0].confs ==>
               Configured(states[0].confs[g]) && Lifetime(states[0].confs[g]) <= limit
    ensures WritesBounded(states[k], limit) && states[k].confs == states[0].confs
  {
    if k > 0 {
      RecordsAreBounded(states, events, k - 1, limit);
      assert F.LeadsAt(states, events, k - 1);
      TimeGoesOn(states[k - 1], events[k - 1]);
      forall id | id in states[k].world.db.facts
        ensures states[k].world.db.facts[id].expiry <= states[k].world.db.now + limit
      {
        StepRecord(states[k - 1], events[k - 1], id);
      }
    }
  }

  /** In every run of configured gateways a user none of whose connections is touched any more
      has no readable route left after the longest lifetime of any gateway. */
  lemma SilentUserGoesOffline(states: seq<Fleet>, events: seq<Event>, i: nat, k: nat, user: string, limit: int)
    requires F.IsRun(states, events) && F.Started(states[0]) && i <= k < |states|
    requires forall g :: g in states[0].confs ==>
               Configured(states[0].confs[g]) && Lifetime(states[0].confs[g]) <= limit
    requires forall id, j :: id in OwnedIds(states[k].world.db, user) && i <= j < k ==> !Touches(events[j], id)
    requires states[i].world.db.now + limit <= states[k].world.db.now
    ensures OwnedIds(states[k].world.db, user) == {}
  {
    RecordsAreBounded(states, events, i, limit);
    forall id ensures id !in OwnedIds(states[k].world.db, user) {
      if id in OwnedIds(states[k].world.db, user) {
        assert Abandoned(states, events, i, k, id);
        AbandonedRecordStays(states, events, i, k, id);
        assert false;
      }
    }
  }
}
