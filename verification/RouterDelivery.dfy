/** Routing a push to a user when nothing fails: the loop over the user's routes,
    local and remote, equals one order-free update of the whole fleet. From it:
    exact delivery, independence of the order Redis lists the routes in,
    convergence, and agreement with the online view. */
module RouterDelivery {
  import opened RouteModel
  import opened Redis
  import opened FrontierModel
  import S = RouteSpec
  import opened RouteReads
  import opened RouterSpec

  /** What becomes of one route. */
  datatype Fate = Delivered | Rejected | Stale | Unroutable

  function FateOf(hubs: map<string, Hub>, meta: ConnectionMeta): Fate {
    if meta.gatewayAddr !in hubs then Unroutable
    else if meta.connectionID !in hubs[meta.gatewayAddr] then Stale
    else if Verdict(hubs[meta.gatewayAddr][meta.connectionID]).Accepted? then Delivered
    else Rejected
  }

  type Place = (string, string)

  function PlaceOf(meta: ConnectionMeta): Place { (meta.gatewayAddr, meta.connectionID) }

  function Places(metas: seq<ConnectionMeta>): set<Place> { set m | m in metas :: PlaceOf(m) }

  /** The places whose routes meet a given fate. */
  function Met(hubs: map<string, Hub>, metas: seq<ConnectionMeta>, fate: Fate): set<Place> {
    set m | m in metas && FateOf(hubs, m) == fate :: PlaceOf(m)
  }

  function StaleRoutes(hubs: map<string, Hub>, metas: seq<ConnectionMeta>): set<string> {
    set m | m in metas && FateOf(hubs, m).Stale? :: m.connectionID
  }

  function Deliver(hubs: map<string, Hub>, places: set<Place>, msg: Message): map<string, Hub> {
    map g | g in hubs :: map c | c in hubs[g] :: if (g, c) in places then Send(hubs[g][c], msg) else hubs[g][c]
  }

  function DropRoutes(db: Db, user: string, ids: set<string>): Db {
    if ids == {} then db else RemoveMembers(db, user, ids).(facts := db.facts - ids)
  }

  /** The fleet after pushing to all routes of `metas`, in no particular order. */
  function Pushed(w: World, user: string, metas: seq<ConnectionMeta>, msg: Message): World {
    w.(hubs := Deliver(w.hubs, Places(metas), msg), db := DropRoutes(w.db, user, StaleRoutes(w.hubs, metas)))
  }

  ghost predicate Quiet(w: World) { w.db.script == [] && w.net == [] && Keyed(w.db) }

  /** Routes as ListByUser returns them: the stored records of one user, one per connection. */
  ghost predicate Listed(w: World, user: string, metas: seq<ConnectionMeta>) {
    && user != ""
    && DistinctIDs(metas)
    && forall m :: m in metas ==> S.Seen(w.db, m.connectionID) == Some(m) && m.userID == user && m.connectionID != ""
  }

  // ----- one route -----

  lemma CleanupDrops(db: Db, user: string, id: string)
    requires db.script == [] && user != "" && id != ""
    ensures S.Cleanup(db, user, id).0 == DropRoutes(db, user, {id})
    ensures S.Cleanup(DropRoutes(db, user, {id}), user, id).0 == DropRoutes(db, user, {id})
  {
    CleanupExact(db, user, id);
  }

  lemma DropsCompose(db: Db, user: string, a: set<string>, b: set<string>)
    ensures DropRoutes(DropRoutes(db, user, a), user, b) == DropRoutes(db, user, a + b)
  {
    var db1 := DropRoutes(db, user, a);
    if a == {} {
      assert a + b == b;
    } else if b == {} {
      assert a + b == a;
    } else {
      assert db1.facts - b == db.facts - (a + b);
      RemovesCompose(db, user, a, b);
      assert RemoveMembers(db1, user, b).index == RemoveMembers(RemoveMembers(db, user, a), user, b).index;
    }
  }

  lemma RemovesCompose(db: Db, user: string, a: set<string>, b: set<string>)
    ensures RemoveMembers(RemoveMembers(db, user, a), user, b) == RemoveMembers(db, user, a + b)
  {
    if HasSet(db, user) {
      var members := db.index[user].members;
      assert members - a - b == members - (a + b);
      var db1 := RemoveMembers(db, user, a);
      if !(members <= a) {
        assert HasSet(db1, user) && db1.index[user].members == members - a;
        assert members - a <= b <==> members <= a + b;
        assert db1.index - {user} == db.index - {user};
        assert RemoveMembers(db1, user, b).index == RemoveMembers(db, user, a + b).index;
      }
    }
  }

  /** The gateway a route names pushes it, or finds it stale and cleans it. */
  lemma AtItsGateway(w: World, meta: ConnectionMeta, msg: Message)
    requires Quiet(w) && meta.gatewayAddr in w.hubs && meta.userID != "" && meta.connectionID != ""
    requires S.Seen(w.db, meta.connectionID) == Some(meta)
    ensures var a := RouteConnection(w, meta.gatewayAddr, meta.connectionID, msg);
            match FateOf(w.hubs, meta)
            case Delivered => a.world == WorldSend(w, meta.gatewayAddr, meta.connectionID, msg).0
                              && a.err.None? && a.resp.status == StatusSuccess
            case Rejected => a.world == w && a.err.Some?
            case Stale => a.world == w.(db := DropRoutes(w.db, meta.userID, {meta.connectionID}))
                          && a.err.None? && a.resp.status == StaleCleaned
            case Unroutable => false
  {
    var hub := w.hubs[meta.gatewayAddr];
    if meta.connectionID in hub {
      assert hub[meta.connectionID := hub[meta.connectionID]] == hub;
      assert w.hubs[meta.gatewayAddr := hub] == w.hubs;
    } else {
      S.GetOnlyReads(w.db, meta.connectionID);
      CleanupDrops(w.db, meta.userID, meta.connectionID);
    }
  }

  function CountFate(s: Summary, fate: Fate): Summary {
    match fate
    case Delivered => s.AddSuccess()
    case Stale => s.AddStale()
    case _ => s.AddFail("")
  }

  predicate SameCounts(a: Summary, b: Summary) { a.(firstError := b.firstError) == b }

  /** Local and remote routes meet the same fate and leave the same fleet. */
  lemma RouteMetaQuiet(w: World, at: string, meta: ConnectionMeta, msg: Message, s: Summary)
    requires Quiet(w) && at in w.hubs && meta.userID != "" && meta.connectionID != ""
    requires S.Seen(w.db, meta.connectionID) == Some(meta)
    ensures var (w', s') := RouteMeta(w, at, meta, msg, s);
            && SameCounts(s', CountFate(s, FateOf(w.hubs, meta)))
            && w' == match FateOf(w.hubs, meta)
                     case Delivered => WorldSend(w, meta.gatewayAddr, meta.connectionID, msg).0
                     case Stale => w.(db := DropRoutes(w.db, meta.userID, {meta.connectionID}))
                     case _ => w
  {
    CleanupDrops(w.db, meta.userID, meta.connectionID);
    if meta.gatewayAddr == at {
      var hub := w.hubs[at];
      if meta.connectionID in hub {
        assert hub[meta.connectionID := hub[meta.connectionID]] == hub;
        assert w.hubs[at := hub] == w.hubs;
      }
    } else if meta.gatewayAddr in w.hubs {
      AtItsGateway(w, meta, msg);
    }
  }

  // ----- all routes -----

  lemma DeliverOne(w: World, places: set<Place>, g: string, c: string, msg: Message)
    requires g in w.hubs && c in w.hubs[g] && (g, c) !in places
    ensures var w1 := w.(hubs := Deliver(w.hubs, places, msg));
            WorldSend(w1, g, c, msg).0.hubs == Deliver(w.hubs, places + {(g, c)}, msg)
  {
    var w1 := w.(hubs := Deliver(w.hubs, places, msg));
    var left := WorldSend(w1, g, c, msg).0.hubs;
    var right := Deliver(w.hubs, places + {(g, c)}, msg);
    assert left.Keys == right.Keys;
    forall h | h in left ensures left[h] == right[h] {
      assert left[h].Keys == right[h].Keys;
    }
  }

  lemma DeliverNone(hubs: map<string, Hub>, places: set<Place>, g: string, c: string, msg: Message)
    requires g in hubs && c in hubs[g] ==> Send(hubs[g][c], msg) == hubs[g][c]
    ensures Deliver(hubs, places + {(g, c)}, msg) == Deliver(hubs, places, msg)
  {
    var left, right := Deliver(hubs, places + {(g, c)}, msg), Deliver(hubs, places, msg);
    forall h | h in left ensures left[h] == right[h] {
      assert left[h].Keys == right[h].Keys;
    }
  }

  /** Adding one route with a new ID to those already pushed. */
  lemma PushOneMore(w: World, user: string, metas: seq<ConnectionMeta>, meta: ConnectionMeta, msg: Message)
    requires Quiet(w) && Listed(w, user, metas + [meta])
    ensures var w1 := Pushed(w, user, metas, msg);
            && Quiet(w1)
            && S.Seen(w1.db, meta.connectionID) == Some(meta)
            && FateOf(w1.hubs, meta) == FateOf(w.hubs, meta)
            && PlaceOf(meta) !in Places(metas)
  {
    var w1 := Pushed(w, user, metas, msg);
    var stale := StaleRoutes(w.hubs, metas);
    forall m | m in metas ensures m.connectionID != meta.connectionID {
      var i :| 0 <= i < |metas| && metas[i] == m;
      assert (metas + [meta])[i] == m && (metas + [meta])[|metas|] == meta;
    }
    assert meta.connectionID !in stale;
    assert meta in metas + [meta];
    assert w1.db.facts == w.db.facts - stale;
    if meta.gatewayAddr in w.hubs && meta.connectionID in w.hubs[meta.gatewayAddr] {
      assert w1.hubs[meta.gatewayAddr][meta.connectionID] == w.hubs[meta.gatewayAddr][meta.connectionID];
    }
  }

  lemma PushedStep(w: World, user: string, metas: seq<ConnectionMeta>, meta: ConnectionMeta, msg: Message)
    requires Quiet(w) && Listed(w, user, metas + [meta])
    ensures var w1 := Pushed(w, user, metas, msg);
            Pushed(w, user, metas + [meta], msg) ==
            match FateOf(w.hubs, meta)
            case Delivered =>
              if meta.gatewayAddr in w1.hubs then WorldSend(w1, meta.gatewayAddr, meta.connectionID, msg).0 else w1
            case Stale => w1.(db := DropRoutes(w1.db, meta.userID, {meta.connectionID}))
            case _ => w1
  {
    var w1 := Pushed(w, user, metas, msg);
    PushOneMore(w, user, metas, meta, msg);
    assert meta in metas + [meta];
    assert Places(metas + [meta]) == Places(metas) + {PlaceOf(meta)};
    var stale := StaleRoutes(w.hubs, metas);
    assert StaleRoutes(w.hubs, metas + [meta])
        == if FateOf(w.hubs, meta).Stale? then stale + {meta.connectionID} else stale;
    DropsCompose(w.db, user, stale, {meta.connectionID});
    if FateOf(w.hubs, meta).Delivered? {
      DeliverOne(w, Places(metas), meta.gatewayAddr, meta.connectionID, msg);
    } else {
      DeliverNone(w.hubs, Places(metas), meta.gatewayAddr, meta.connectionID, msg);
    }
  }

  predicate Tallies(hubs: map<string, Hub>, metas: seq<ConnectionMeta>, s: Summary) {
    && s.successCount == |Met(hubs, metas, Delivered)|
    && s.staleCount == |Met(hubs, metas, Stale)|
    && s.failCount == |Met(hubs, metas, Rejected)| + |Met(hubs, metas, Unroutable)|
    && s.noopCount == 0
  }

  lemma MetGrows(hubs: map<string, Hub>, metas: seq<ConnectionMeta>, meta: ConnectionMeta, fate: Fate)
    ensures Met(hubs, metas + [meta], fate) ==
            if FateOf(hubs, meta) == fate then Met(hubs, metas, fate) + {PlaceOf(meta)} else Met(hubs, metas, fate)
  {
    assert forall m :: m in metas + [meta] <==> m in metas || m == meta;
  }

  lemma MetOneMore(hubs: map<string, Hub>, metas: seq<ConnectionMeta>, meta: ConnectionMeta, fate: Fate)
    requires PlaceOf(meta) !in Places(metas)
    ensures |Met(hubs, metas + [meta], fate)| == |Met(hubs, metas, fate)| + if FateOf(hubs, meta) == fate then 1 else 0
  {
    MetGrows(hubs, metas, meta, fate);
    assert PlaceOf(meta) !in Met(hubs, metas, fate);
  }

  lemma TallyOneMore(hubs: map<string, Hub>, metas: seq<ConnectionMeta>, meta: ConnectionMeta, s: Summary, s': Summary)
    requires Tallies(hubs, metas, s) && PlaceOf(meta) !in Places(metas)
    requires SameCounts(s', CountFate(s, FateOf(hubs, meta)))
    ensures Tallies(hubs, metas + [meta], s')
  {
    MetOneMore(hubs, metas, meta, Delivered);
    MetOneMore(hubs, metas, meta, Rejected);
    MetOneMore(hubs, metas, meta, Stale);
    MetOneMore(hubs, metas, meta, Unroutable);
  }

  lemma NothingPushed(w: World, user: string, msg: Message)
    ensures Pushed(w, user, [], msg) == w && Tallies(w.hubs, [], EMPTY_SUMMARY)
  {
    assert StaleRoutes(w.hubs, []) == {} && Places([]) == {};
    forall fate: Fate ensures Met(w.hubs, [], fate) == {} {}
    forall g | g in w.hubs ensures Deliver(w.hubs, {}, msg)[g] == w.hubs[g] {}
    assert Deliver(w.hubs, {}, msg) == w.hubs;
  }

  /** The loop over the routes is the order-free update. */
  lemma {:induction false} RouteAllQuiet(w: World, at: string, user: string, metas: seq<ConnectionMeta>, msg: Message)
    requires Quiet(w) && at in w.hubs && Listed(w, user, metas)
    ensures var (w', s) := RouteAll(w, at, metas, msg);
            w' == Pushed(w, user, metas, msg) && Tallies(w.hubs, metas, s)
  {
    if metas == [] {
      NothingPushed(w, user, msg);
    } else {
      var n := |metas| - 1;
      var front, meta := metas[..n], metas[n];
      assert metas == front + [meta];
      RouteAllQuiet(w, at, user, front, msg);
      var (w1, s) := RouteAll(w, at, front, msg);
      PushOneMore(w, user, front, meta, msg);
      RouteMetaQuiet(w1, at, meta, msg, s);
      PushedStep(w, user, front, meta, msg);
      TallyOneMore(w.hubs, front, meta, s, RouteMeta(w1, at, meta, msg, s).1);
    }
  }
}
