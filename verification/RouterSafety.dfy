/** Routing under any pattern of Redis failures and lost calls: it deletes a route
    only when the gateway the route names does not have the connection, and a push
    to a connection is forwarded at most once. */
module RouterSafety {
  import opened RouteModel
  import opened Redis
  import opened FrontierModel
  import S = RouteSpec
  import opened RouteReads
  import opened RouterSpec

  /** The route of `id`, if readable, names a gateway that does not have the connection. */
  ghost predicate Deserted(w: World, id: string) {
    var seen := S.Seen(w.db, id);
    seen.Some? ==> seen.value.gatewayAddr in w.hubs && id !in w.hubs[seen.value.gatewayAddr]
  }

  /** The same gateways hold the same connections; only queues may differ. */
  ghost predicate SameConnections(w: World, w': World) {
    && w'.hubs.Keys == w.hubs.Keys
    && forall g :: g in w.hubs ==> w'.hubs[g].Keys == w.hubs[g].Keys
  }

  /** `w'` comes from `w` by deleting facts of deserted routes only. */
  ghost predicate Pruned(w: World, w': World) {
    && SameConnections(w, w')
    && w'.db.now == w.db.now
    && (forall id :: id in w'.db.facts ==> id in w.db.facts && w'.db.facts[id] == w.db.facts[id])
    && (forall id :: id in w.db.facts && id !in w'.db.facts ==> Deserted(w, id))
  }

  lemma PrunedTransitive(w: World, w1: World, w2: World)
    requires Pruned(w, w1) && Pruned(w1, w2)
    ensures Pruned(w, w2)
  {
    forall id | id in w.db.facts && id !in w2.db.facts ensures Deserted(w, id) {
      if id in w1.db.facts { assert Deserted(w1, id); }
    }
  }

  lemma SendPrunes(w: World, at: string, id: string, msg: Message)
    requires at in w.hubs
    ensures Pruned(w, WorldSend(w, at, id, msg).0)
  {
  }

  lemma CleanupPrunes(w: World, user: string, id: string)
    requires Deserted(w, id)
    ensures Pruned(w, w.(db := S.Cleanup(w.db, user, id).0))
  {
    S.CleanupFacts(w.db, user, id);
  }

  lemma ReadPrunes(w: World, id: string)
    ensures var w1 := w.(db := S.GetMeta(w.db, id).0);
            && Pruned(w, w1) && (Keyed(w.db) ==> Keyed(w1.db))
            && S.Seen(w1.db, id) == S.Seen(w.db, id)
            && (Deserted(w1, id) ==> Deserted(w, id))
  {
    S.GetOnlyReads(w.db, id);
  }

  lemma StaleHerePrunes(w: World, at: string, id: string, msg: Message)
    requires at in w.hubs && Keyed(w.db) && id != "" && id !in w.hubs[at]
    requires S.GetMeta(w.db, id).1.Ok? && S.GetMeta(w.db, id).1.value.gatewayAddr == at
    ensures var a := RouteConnection(w, at, id, msg);
            Pruned(w, a.world) && Deserted(w, id)
  {
    S.GetOnlyReads(w.db, id);
    ReadPrunes(w, id);
    var (db1, got) := S.GetMeta(w.db, id);
    var w1 := w.(db := db1);
    CleanupPrunes(w1, got.value.userID, id);
    PrunedTransitive(w, w1, w1.(db := S.Cleanup(db1, got.value.userID, id).0));
  }

  /** A stale verdict that arrives without an error, from however far, is true. */
  lemma {:induction false} RouteConnectionPrunes(w: World, at: string, id: string, msg: Message)
    requires at in w.hubs && Keyed(w.db)
    ensures var a := RouteConnection(w, at, id, msg);
            && Pruned(w, a.world)
            && (a.err.None? && a.resp.status.StaleCleaned? ==> Deserted(w, id))
    decreases Hops(w.db, at, id), 0
  {
    if id == "" {
    } else if id in w.hubs[at] {
      SendPrunes(w, at, id, msg);
    } else {
      S.GetOnlyReads(w.db, id);
      ReadPrunes(w, id);
      var (db1, got) := S.GetMeta(w.db, id);
      var w1 := w.(db := db1);
      if got.Ok? && got.value.gatewayAddr == at {
        StaleHerePrunes(w, at, id, msg);
      } else if got.Ok? {
        PushRemotePrunes(w1, got.value.gatewayAddr, id, msg);
        PrunedTransitive(w, w1, PushRemote(w1, got.value.gatewayAddr, id, msg).world);
      }
    }
  }

  lemma {:induction false} PushRemotePrunes(w: World, addr: string, id: string, msg: Message)
    requires Keyed(w.db)
    ensures var a := PushRemote(w, addr, id, msg);
            && Pruned(w, a.world)
            && (a.err.None? && a.resp.status.StaleCleaned? ==> Deserted(w, id))
    decreases Hops(w.db, addr, id), 1
  {
    if addr in w.hubs && !NextLink(w).Unreachable? {
      RouteConnectionPrunes(ConsumeLink(w), addr, id, msg);
      LinksPruneNothing(w, RouteConnection(ConsumeLink(w), addr, id, msg).world, id);
    } else {
      LinksPruneNothing(w, w, id);
    }
  }

  lemma LinksPruneNothing(w: World, w': World, id: string)
    ensures Pruned(w, w) && Pruned(w, ConsumeLink(w))
    ensures Pruned(ConsumeLink(w), w') ==> Pruned(w, w')
    ensures Deserted(ConsumeLink(w), id) ==> Deserted(w, id)
  {
    if Pruned(ConsumeLink(w), w') { PrunedTransitive(w, ConsumeLink(w), w'); }
  }

  lemma RouteMetaPrunes(w: World, at: string, meta: ConnectionMeta, msg: Message, s: Summary)
    requires at in w.hubs && Keyed(w.db)
    requires meta.connectionID in w.db.facts ==> S.Seen(w.db, meta.connectionID) == Some(meta)
    ensures Pruned(w, RouteMeta(w, at, meta, msg, s).0)
  {
    if meta.connectionID == "" {
    } else if meta.gatewayAddr == at {
      if meta.connectionID in w.hubs[at] {
        SendPrunes(w, at, meta.connectionID, msg);
      } else {
        CleanupPrunes(w, meta.userID, meta.connectionID);
      }
    } else {
      var a := PushRemote(w, meta.gatewayAddr, meta.connectionID, msg);
      PushRemotePrunes(w, meta.gatewayAddr, meta.connectionID, msg);
      if a.err.None? && a.resp.status.StaleCleaned? {
        assert Deserted(a.world, meta.connectionID);
        CleanupPrunes(a.world, meta.userID, meta.connectionID);
        PrunedTransitive(w, a.world, CleanupRoute(a.world, meta));
      }
    }
  }

  lemma {:induction false} RouteAllPrunes(w: World, at: string, metas: seq<ConnectionMeta>, msg: Message)
    requires at in w.hubs && Keyed(w.db)
    requires forall m :: m in metas ==> S.Seen(w.db, m.connectionID) == Some(m)
    ensures Pruned(w, RouteAll(w, at, metas, msg).0)
  {
    if metas != [] {
      var n := |metas| - 1;
      RouteAllPrunes(w, at, metas[..n], msg);
      var (w1, s) := RouteAll(w, at, metas[..n], msg);
      assert metas[n] in metas;
      RouteMetaPrunes(w1, at, metas[n], msg, s);
      PrunedTransitive(w, w1, RouteAll(w, at, metas, msg).0);
    }
  }

  /** The records a scan returns are the ones stored, whatever failed in between. */
  lemma {:induction false} ScanSees(db: Db, user: string, ids: seq<string>)
    requires Keyed(db) && S.Scan(db, user, ids).1.Ok?
    ensures forall m :: m in S.Scan(db, user, ids).1.value.metas ==>
              S.Seen(db, m.connectionID) == Some(m) && m.userID == user && m.connectionID != ""
  {
    if ids != [] {
      var n := |ids| - 1;
      ScanSees(db, user, ids[..n]);
      S.ScanOnlyReads(db, user, ids[..n]);
      S.GetOnlyReads(S.Scan(db, user, ids[..n]).0, ids[n]);
    }
  }

  /** Pushing to a user deletes the route of a connection only if the gateway the
      route names does not have the connection: for any store, any Redis failures
      and any lost calls, stale verdicts of remote gateways included. */
  lemma RouteUserNeverCleansLive(w: World, at: string, user: string, ids: seq<string>, msg: Message)
    requires at in w.hubs && Keyed(w.db)
    ensures Pruned(w, RouteUser(w, at, user, ids, msg).0)
  {
    if user != "" {
      var (db1, r) := S.ListByUser(w.db, user, ids);
      ListStaysKeyed(w.db, user, ids);
      if r.Ok? {
        ScanSees(Read(w.db).0, user, ids);
        var w1 := w.(db := db1);
        RouteAllPrunes(w1, at, r.value, msg);
        PrunedTransitive(w, w1, RouteAll(w1, at, r.value, msg).0);
      }
    }
  }

  /** The same for a push to one connection. */
  lemma RouteConnectionNeverCleansLive(w: World, at: string, id: string, msg: Message)
    requires at in w.hubs && Keyed(w.db)
    ensures Pruned(w, RouteConnection(w, at, id, msg).world)
  {
    RouteConnectionPrunes(w, at, id, msg);
  }

  /** A push to a connection is handled by this gateway, and by at most one other:
      the one its route names. */
  lemma BoundedForwarding(w: World, at: string, id: string, msg: Message)
    requires at in w.hubs && Keyed(w.db)
    ensures var visited := RouteConnection(w, at, id, msg).visited;
            || visited == [at]
            || (S.Seen(w.db, id).Some? && S.Seen(w.db, id).value.gatewayAddr != at
                && visited == [at, S.Seen(w.db, id).value.gatewayAddr])
  {
    if id != "" && id !in w.hubs[at] {
      S.GetOnlyReads(w.db, id);
      var (db1, got) := S.GetMeta(w.db, id);
      var w1 := w.(db := db1);
      if got.Ok? && got.value.gatewayAddr != at && got.value.gatewayAddr in w.hubs && !NextLink(w1).Unreachable? {
        LastStop(ConsumeLink(w1), got.value.gatewayAddr, id, msg);
      }
    }
  }

  /** The gateway a route names never forwards. */
  lemma LastStop(w: World, at: string, id: string, msg: Message)
    requires at in w.hubs && Keyed(w.db)
    requires S.Seen(w.db, id).Some? && S.Seen(w.db, id).value.gatewayAddr == at
    ensures RouteConnection(w, at, id, msg).visited == [at]
  {
    S.GetOnlyReads(w.db, id);
  }

  // ----- stores with records under an ID they do not carry -----

  /** Routing a record to its own gateway prunes. */
  ghost predicate LocalSafeAt(w: World, id: string, msg: Message) {
    var seen := S.Seen(w.db, id);
    seen.Some? && seen.value.gatewayAddr in w.hubs ==>
      Pruned(w, RouteLocal(w, seen.value.gatewayAddr, seen.value, msg, EMPTY_SUMMARY).0)
  }

  /** Records that name the same connection name the same gateway. */
  ghost predicate SelfConsistent(db: Db) {
    forall id :: S.Seen(db, id).Some? ==> AgreesWithNamed(db, S.Seen(db, id).value)
  }

  predicate AgreesWithNamed(db: Db, meta: ConnectionMeta) {
    var named := S.Seen(db, meta.connectionID);
    named.Some? ==> named.value.gatewayAddr == meta.gatewayAddr
  }

  lemma KeyedIsSelfConsistent(db: Db)
    requires Keyed(db)
    ensures SelfConsistent(db)
  {
  }

  /** A gateway's own routing never cleans a live route, whatever the hubs hold, if and
      only if the store is self-consistent. */
  lemma LocalRoutingSafeIff(db: Db, msg: Message)
    requires db.script == []
    ensures (forall w: World, id :: w.db == db ==> LocalSafeAt(w, id, msg)) <==> SelfConsistent(db)
  {
    if SelfConsistent(db) {
      forall w: World, id | w.db == db ensures LocalSafeAt(w, id, msg) {
        LocalRoutingPrunes(w, id, msg);
      }
    } else {
      var id :| S.Seen(db, id).Some? && !AgreesWithNamed(db, S.Seen(db, id).value);
      var w := LocalRoutingCleansLive(db, id, msg);
    }
  }

  lemma LocalRoutingPrunes(w: World, id: string, msg: Message)
    requires SelfConsistent(w.db)
    ensures LocalSafeAt(w, id, msg)
  {
    var seen := S.Seen(w.db, id);
    if seen.Some? && seen.value.gatewayAddr in w.hubs {
      var (at, c) := (seen.value.gatewayAddr, seen.value.connectionID);
      if c in w.hubs[at] {
        SendPrunes(w, at, c, msg);
      } else {
        assert AgreesWithNamed(w.db, seen.value);
        CleanupPrunes(w, seen.value.userID, c);
      }
    }
  }

  lemma LocalRoutingCleansLive(db: Db, id: string, msg: Message) returns (w: World)
    requires db.script == [] && S.Seen(db, id).Some? && !AgreesWithNamed(db, S.Seen(db, id).value)
    ensures w.db == db && !LocalSafeAt(w, id, msg)
  {
    var meta := S.Seen(db, id).value;
    var (at, c) := (meta.gatewayAddr, meta.connectionID);
    var there := S.Seen(db, c).value.gatewayAddr;
    w := World(db, map[at := map[], there := map[c := ConnState("user", [], false, 0)]], []);
    CleanupExact(db, meta.userID, c);
    assert !Deserted(w, c) && c in db.facts;
    assert c !in RouteLocal(w, at, meta, msg, EMPTY_SUMMARY).0.db.facts;
  }

  /** Where a gateway that lacks the connection sends a push on: to the gateway and the ID
      the record names. */
  function Forward(w: World, at: string, id: string): Option<(string, string)> {
    if at !in w.hubs || id in w.hubs[at] then None
    else match S.Seen(w.db, id)
      case None => None
      case Some(meta) =>
        if meta.gatewayAddr == at || meta.gatewayAddr !in w.hubs then None
        else Some((meta.gatewayAddr, meta.connectionID))
  }

  /** Nobody forwards a forwarded push while the records are keyed. */
  lemma ForwardsOnce(w: World, at: string, id: string)
    requires Keyed(w.db) && Forward(w, at, id).Some?
    ensures var (g, c) := Forward(w, at, id).value; Forward(w, g, c).None?
  {
  }

  /** With two records that name each other, two gateways forward to each other forever. */
  lemma MislabelledRecordsForwardForever(here: string, there: string)
    requires here != there && here != "" && there != ""
    ensures var a := ConnectionMeta("user", "b", "", there, there, "", "", 1, 1);
            var b := ConnectionMeta("user", "a", "", here, here, "", "", 1, 1);
            var db := Db(0, map["a" := Fact(a, 1), "b" := Fact(b, 1)], map[], []);
            var w := World(db, map[here := map[], there := map[]], []);
            && Forward(w, here, "a") == Some((there, "b"))
            && Forward(w, there, "b") == Some((here, "a"))
  {
  }

  /** Without keyed records the promise fails: a record stored under one ID that names
      another lets a push to its user delete the route of a live connection. */
  lemma MislabelledRecordCleansLive(here: string, there: string, msg: Message)
    requires here != there && here != "" && there != ""
    ensures var mislabelled := ConnectionMeta("user", "live", "", here, here, "", "", 1, 1);
            var facts := map["other" := Fact(mislabelled, 1), "live" := Fact(mislabelled.(gatewayAddr := there), 1)];
            var w := World(Db(0, facts, map["user" := Index({"other"}, None)], []),
                           map[here := map[], there := map["live" := ConnState("user", [], false, 0)]], []);
            && !Keyed(w.db)
            && S.ListByUser(w.db, "user", ["other"]) == (w.db, Ok([mislabelled]))
            && !Pruned(w, RouteLocal(w, here, mislabelled, msg, EMPTY_SUMMARY).0)
  {
    var mislabelled := ConnectionMeta("user", "live", "", here, here, "", "", 1, 1);
    var facts := map["other" := Fact(mislabelled, 1), "live" := Fact(mislabelled.(gatewayAddr := there), 1)];
    var w := World(Db(0, facts, map["user" := Index({"other"}, None)], []),
                   map[here := map[], there := map["live" := ConnState("user", [], false, 0)]], []);
    assert !Blank("other") by { assert !IsSpace("other"[0]); }
    assert Owns(w.db, "user", "other") && Members(w.db, "user") == {"other"};
    assert LiveMetas(w.db, "user", ["other"]) == [mislabelled] by { assert ["other"][..0] == []; }
    assert StaleSet(w.db, "user") == {};
    ListQuiet(w.db, "user", ["other"]);
    assert "live" in w.db.facts && !Deserted(w, "live");
    var w' := RouteLocal(w, here, mislabelled, msg, EMPTY_SUMMARY).0;
    assert "live" !in w'.db.facts;
  }
}
