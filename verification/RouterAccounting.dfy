/** What a push to a user may claim under any pattern of Redis failures, unreachable
    gateways and lost replies: no connection gets a second copy, nothing is queued
    beyond the user's routes, and no delivery is reported that did not happen. */
module RouterAccounting {
  import opened RouteModel
  import opened Redis
  import opened FrontierModel
  import S = RouteSpec
  import opened RouteReads
  import opened RouterSpec
  import opened RouterDelivery
  import RouterSafety

  /** One connection with that ID took the message; nothing else changed. */
  predicate Took(hubs: map<string, Hub>, hubs': map<string, Hub>, g: string, id: string, msg: Message) {
    && g in hubs && id in hubs[g] && Verdict(hubs[g][id]).Accepted?
    && hubs' == hubs[g := hubs[g][id := Send(hubs[g][id], msg)]]
  }

  ghost predicate AtMostOnce(hubs: map<string, Hub>, hubs': map<string, Hub>, id: string, msg: Message,
      reported: bool)
  {
    (!reported && hubs' == hubs) || exists g :: Took(hubs, hubs', g, id, msg)
  }

  lemma SendOnce(w: World, g: string, id: string, msg: Message)
    requires g in w.hubs
    ensures var (w', r) := WorldSend(w, g, id, msg);
            AtMostOnce(w.hubs, w'.hubs, id, msg, r.Accepted?)
  {
    var (w', r) := WorldSend(w, g, id, msg);
    if r.Accepted? {
      assert Took(w.hubs, w'.hubs, g, id, msg);
    } else {
      if id in w.hubs[g] { assert w.hubs[g][id := w.hubs[g][id]] == w.hubs[g]; }
      assert w.hubs[g := w.hubs[g]] == w.hubs;
    }
  }

  /** A success that arrives without an error stands for one queued copy. */
  lemma {:induction false} RouteConnectionOnce(w: World, at: string, id: string, msg: Message)
    requires at in w.hubs && Keyed(w.db)
    ensures var a := RouteConnection(w, at, id, msg);
            AtMostOnce(w.hubs, a.world.hubs, id, msg, a.err.None? && a.resp.status.StatusSuccess?)
    decreases Hops(w.db, at, id), 0
  {
    if id != "" && id in w.hubs[at] {
      SendOnce(w, at, id, msg);
    } else if id != "" {
      S.GetOnlyReads(w.db, id);
      var (db1, got) := S.GetMeta(w.db, id);
      if got.Ok? && got.value.gatewayAddr != at { PushRemoteOnce(w.(db := db1), got.value.gatewayAddr, id, msg); }
    }
  }

  lemma {:induction false} PushRemoteOnce(w: World, addr: string, id: string, msg: Message)
    requires Keyed(w.db)
    ensures var a := PushRemote(w, addr, id, msg);
            AtMostOnce(w.hubs, a.world.hubs, id, msg, a.err.None? && a.resp.status.StatusSuccess?)
    decreases Hops(w.db, addr, id), 1
  {
    if addr in w.hubs && !NextLink(w).Unreachable? { RouteConnectionOnce(ConsumeLink(w), addr, id, msg); }
  }

  /** One route of a push to a user. */
  lemma RouteMetaOnce(w: World, at: string, meta: ConnectionMeta, msg: Message, s: Summary)
    requires at in w.hubs && Keyed(w.db)
    ensures var (w', s') := RouteMeta(w, at, meta, msg, s);
            && s.successCount <= s'.successCount <= s.successCount + 1
            && AtMostOnce(w.hubs, w'.hubs, meta.connectionID, msg, s'.successCount > s.successCount)
  {
    if meta.connectionID == "" {
    } else if meta.gatewayAddr == at {
      SendOnce(w, at, meta.connectionID, msg);
    } else {
      PushRemoteOnce(w, meta.gatewayAddr, meta.connectionID, msg);
    }
  }

  /** One copy was queued at each of `places`, which are open and not full, and
      nowhere else; an ID occurs in `places` once, on whatever gateway. */
  ghost predicate Queued(hubs: map<string, Hub>, hubs': map<string, Hub>, places: set<Place>, ids: set<string>,
      msg: Message)
  {
    && hubs' == Deliver(hubs, places, msg)
    && (forall g, c :: (g, c) in places ==> g in hubs && c in hubs[g] && Verdict(hubs[g][c]).Accepted? && c in ids)
    && (forall g, h, c :: (g, c) in places && (h, c) in places ==> g == h)
  }

  lemma QueuedOneMore(w: World, w1: World, hubs': map<string, Hub>, places: set<Place>, ids: set<string>, id: string,
      msg: Message, reported: bool) returns (places': set<Place>)
    requires Queued(w.hubs, w1.hubs, places, ids, msg) && id !in ids
    requires AtMostOnce(w1.hubs, hubs', id, msg, reported)
    ensures Queued(w.hubs, hubs', places', ids + {id}, msg)
    ensures |places| + (if reported then 1 else 0) <= |places'|
  {
    if hubs' == w1.hubs && !reported {
      places' := places;
    } else {
      var g :| Took(w1.hubs, hubs', g, id, msg);
      places' := places + {(g, id)};
      assert (g, id) !in places;
      assert w1.hubs[g][id] == w.hubs[g][id];
      DeliverOne(w, places, g, id, msg);
    }
  }

  lemma NothingQueued(hubs: map<string, Hub>, msg: Message)
    ensures Queued(hubs, hubs, {}, {}, msg)
  {
    forall g | g in hubs ensures Deliver(hubs, {}, msg)[g] == hubs[g] {
    }
  }

  /** All routes of a push to a user, each ID once. */
  lemma {:induction false} RouteAllAccounted(w: World, at: string, metas: seq<ConnectionMeta>, msg: Message)
    returns (places: set<Place>)
    requires at in w.hubs && Keyed(w.db) && DistinctIDs(metas)
    ensures var (w', s) := RouteAll(w, at, metas, msg);
            Queued(w.hubs, w'.hubs, places, IDsOf(metas), msg) && s.successCount <= |places|
  {
    if metas == [] {
      places := {};
      NothingQueued(w.hubs, msg);
    } else {
      var n := |metas| - 1;
      var id := metas[n].connectionID;
      places := RouteAllAccounted(w, at, metas[..n], msg);
      var (w1, s1) := RouteAll(w, at, metas[..n], msg);
      var (w2, s2) := RouteMeta(w1, at, metas[n], msg, s1);
      RouteMetaOnce(w1, at, metas[n], msg, s1);
      LastID(metas);
      places := QueuedOneMore(w, w1, w2.hubs, places, IDsOf(metas[..n]), id, msg, s2.successCount > s1.successCount);
    }
  }

  lemma LastID(metas: seq<ConnectionMeta>)
    requires metas != [] && DistinctIDs(metas)
    ensures var n := |metas| - 1;
            && metas[n].connectionID !in IDsOf(metas[..n])
            && IDsOf(metas) == IDsOf(metas[..n]) + {metas[n].connectionID}
  {
    var n := |metas| - 1;
    assert forall m :: m in metas <==> m in metas[..n] || m == metas[n];
  }

  /** A scan never lists an ID twice, whatever fails. */
  lemma {:induction false} ScanDistinct(db: Db, user: string, ids: seq<string>)
    requires Keyed(db) && NoDuplicates(ids) && S.Scan(db, user, ids).1.Ok?
    ensures var metas := S.Scan(db, user, ids).1.value.metas;
            DistinctIDs(metas) && forall m :: m in metas ==> m.connectionID in ids
  {
    if ids != [] {
      var n := |ids| - 1;
      ScanDistinct(db, user, ids[..n]);
      S.ScanOnlyReads(db, user, ids[..n]);
      S.GetOnlyReads(S.Scan(db, user, ids[..n]).0, ids[n]);
      assert forall x :: x in ids <==> x in ids[..n] || x == ids[n];
    }
  }

  function RoutesAmong(db: Db, user: string, ids: seq<string>): set<string> { set id | id in ids && Owns(db, user, id) }

  /** Whatever fails: a push to a user queues at most one copy per connection ID, only on
      connections whose route is the user's, and reports no more deliveries than
      there are copies. */
  lemma NoFalseNorDoubleDelivery(w: World, at: string, user: string, ids: seq<string>, msg: Message)
    returns (places: set<Place>)
    requires at in w.hubs && Keyed(w.db) && Enumerates(ids, Members(w.db, user))
    ensures var (w', r) := RouteUser(w, at, user, ids, msg);
            && Queued(w.hubs, w'.hubs, places, RoutesAmong(w.db, user, ids), msg)
            && r.connectionCount <= |places|
            && (r.status.StatusSuccess? ==> places != {})
  {
    places := {};
    NothingQueued(w.hubs, msg);
    if user != "" {
      var (db1, r) := S.ListByUser(w.db, user, ids);
      ListStaysKeyed(w.db, user, ids);
      if r.Ok? {
        ListedOnce(w.db, user, ids);
        places := RouteAllAccounted(w.(db := db1), at, r.value, msg);
      }
    }
  }

  lemma ListedOnce(db: Db, user: string, ids: seq<string>)
    requires Keyed(db) && user != "" && NoDuplicates(ids) && S.ListByUser(db, user, ids).1.Ok?
    ensures var metas := S.ListByUser(db, user, ids).1.value;
            DistinctIDs(metas) && IDsOf(metas) <= RoutesAmong(db, user, ids)
  {
    var scanned := Read(db).0;
    RouterSafety.ScanSees(scanned, user, ids);
    ScanDistinct(scanned, user, ids);
    forall id ensures S.Seen(db, id) == S.Seen(scanned, id) {}
  }
}
