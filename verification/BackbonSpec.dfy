/** The backend-facing operations (src/backbon/service/push_data.go,
    src/backbon/service/check_user_online.go): results and tallies of a push to many
    users, and the online view of the route store. */
module BackbonSpec {
  import opened RouteModel
  import opened Redis
  import opened FrontierModel
  import S = RouteSpec
  import opened RouteReads
  import R = RouteRuns
  import opened RouterSpec
  import RS = RouterSafety
  import RF = RouteFailures

  // ----- push results -----

  datatype PushDataReq = PushDataReq(userIDs: seq<string>, message: Option<Message>, broadcast: bool)

  datatype PushDataResp = PushDataResp(results: seq<PushResult>, successCount: nat, failCount: nat)

  const NO_RESULTS := PushDataResp([], 0, 0)

  function AppendResult(resp: PushDataResp, r: PushResult): PushDataResp {
    if r.success then resp.(results := resp.results + [r], successCount := resp.successCount + 1)
    else resp.(results := resp.results + [r], failCount := resp.failCount + 1)
  }

  datatype PushToConnectionReq = PushToConnectionReq(connectionID: string, message: Option<Message>)

  function ConnectionRefusal(req: Option<PushToConnectionReq>): Option<string> {
    if req.None? then Some("request is required")
    else if req.value.connectionID == "" then Some("connectionID is required")
    else if req.value.message.None? then Some("message is required")
    else None
  }

  lemma FirstResult(r: PushResult)
    ensures AppendResult(NO_RESULTS, r) == PushDataResp([r], if r.success then 1 else 0, if r.success then 0 else 1)
  {
    assert [] + [r] == [r];
  }

  /** Why a request is refused, if it is. */
  function Refusal(req: Option<PushDataReq>): Option<string> {
    if req.None? then Some("request is required")
    else if req.value.message.None? then Some("message is required")
    else if !req.value.broadcast && req.value.userIDs == [] then Some("userIDs is required when broadcast is false")
    else None
  }

  /** A push is served iff it has a message and is a broadcast or names users; a refusal says
      which of these is missing. */
  lemma RefusalIff(req: Option<PushDataReq>)
    ensures Refusal(req) == None <==>
            req.Some? && req.value.message.Some? && (req.value.broadcast || req.value.userIDs != [])
    ensures Refusal(req) == Some("request is required") <==> req.None?
    ensures Refusal(req) == Some("message is required") <==> req.Some? && req.value.message.None?
    ensures Refusal(req) == Some("userIDs is required when broadcast is false") <==>
            req.Some? && req.value.message.Some? && !req.value.broadcast && req.value.userIDs == []
  {
    assert "request is required"[0] != "message is required"[0];
    assert "userIDs is required when broadcast is false"[0] == 'u';
  }

  /** The same for a push to one connection. */
  lemma ConnectionRefusalIff(req: Option<PushToConnectionReq>)
    ensures ConnectionRefusal(req) == None <==>
            req.Some? && req.value.connectionID != "" && req.value.message.Some?
    ensures ConnectionRefusal(req) == Some("request is required") <==> req.None?
    ensures ConnectionRefusal(req) == Some("connectionID is required") <==> req.Some? && req.value.connectionID == ""
    ensures ConnectionRefusal(req) == Some("message is required") <==>
            req.Some? && req.value.connectionID != "" && req.value.message.None?
  {
    assert "request is required"[0] != "message is required"[0];
    assert "connectionID is required"[0] == 'c';
  }

  /** Pushes to one user after the other; `orders` are the answers of Redis. */
  function PushUsers(w: World, at: string, users: seq<string>, orders: seq<seq<string>>, msg: Message)
    : (r: (World, PushDataResp))
    requires at in w.hubs && Keyed(w.db) && |orders| == |users|
    ensures r.0.hubs.Keys == w.hubs.Keys && Keyed(r.0.db)
  {
    if users == [] then (w, NO_RESULTS) else
    var n := |users| - 1;
    var (w1, resp) := PushUsers(w, at, users[..n], orders[..n], msg);
    RouteUserStays(w1, at, users[n], orders[n], msg);
    var (w2, r) := RouteUser(w1, at, users[n], orders[n], msg);
    (w2, AppendResult(resp, r))
  }

  lemma RouteUserStays(w: World, at: string, user: string, ids: seq<string>, msg: Message)
    requires at in w.hubs && Keyed(w.db)
    ensures var w' := RouteUser(w, at, user, ids, msg).0; w'.hubs.Keys == w.hubs.Keys && Keyed(w'.db)
  {
    ListStaysKeyed(w.db, user, ids);
  }

  /** Each order lists the user's set as it is when that user's turn comes. */
  ghost predicate Answers(w: World, at: string, users: seq<string>, orders: seq<seq<string>>, msg: Message)
    requires at in w.hubs && Keyed(w.db)
  {
    |orders| == |users| && forall i :: 0 <= i < |users| ==> AnswersAt(w, at, users, orders, msg, i)
  }

  ghost predicate AnswersAt(w: World, at: string, users: seq<string>, orders: seq<seq<string>>, msg: Message, i: nat)
    requires at in w.hubs && Keyed(w.db) && i < |users| == |orders|
  {
    Enumerates(orders[i], Members(PushUsers(w, at, users[..i], orders[..i], msg).0.db, users[i]))
  }

  /** One more user, at the end of the list. */
  lemma NextUser(w: World, at: string, users: seq<string>, orders: seq<seq<string>>, user: string, ids: seq<string>,
      msg: Message)
    requires at in w.hubs && Keyed(w.db) && Answers(w, at, users, orders, msg)
    requires Enumerates(ids, Members(PushUsers(w, at, users, orders, msg).0.db, user))
    ensures Answers(w, at, users + [user], orders + [ids], msg)
    ensures var (w1, resp) := PushUsers(w, at, users, orders, msg);
            var (w2, r) := RouteUser(w1, at, user, ids, msg);
            var (w', resp') := PushUsers(w, at, users + [user], orders + [ids], msg);
            w' == w2 && resp' == AppendResult(resp, r)
  {
    var users', orders' := users + [user], orders + [ids];
    assert users'[..|users|] == users && orders'[..|users|] == orders;
    forall i | 0 <= i < |users'| ensures AnswersAt(w, at, users', orders', msg, i) {
      if i < |users| {
        assert AnswersAt(w, at, users, orders, msg, i);
        assert users'[..i] == users[..i] && orders'[..i] == orders[..i];
      }
    }
  }

  /** The push has served the first `i` users. */
  ghost predicate Served(w: World, at: string, users: seq<string>, i: nat, orders: seq<seq<string>>, msg: Message,
      w1: World, resp: PushDataResp)
    requires at in w.hubs && Keyed(w.db) && i <= |users|
  {
    Answers(w, at, users[..i], orders, msg) && PushUsers(w, at, users[..i], orders, msg) == (w1, resp)
  }

  lemma NextOfUsers(w: World, at: string, users: seq<string>, i: nat, orders: seq<seq<string>>, ids: seq<string>,
      msg: Message, w1: World, resp: PushDataResp)
    requires at in w.hubs && Keyed(w.db) && i < |users| && Served(w, at, users, i, orders, msg, w1, resp)
    requires at in w1.hubs && Keyed(w1.db) && Enumerates(ids, Members(w1.db, users[i]))
    ensures var (w2, r) := RouteUser(w1, at, users[i], ids, msg);
            Served(w, at, users, i + 1, orders + [ids], msg, w2, AppendResult(resp, r))
  {
    assert users[..i + 1] == users[..i] + [users[i]];
    NextUser(w, at, users[..i], orders, users[i], ids, msg);
  }

  lemma AllServed(w: World, at: string, users: seq<string>, orders: seq<seq<string>>, msg: Message,
      w1: World, resp: PushDataResp)
    requires at in w.hubs && Keyed(w.db) && Served(w, at, users, |users|, orders, msg, w1, resp)
    ensures Answers(w, at, users, orders, msg) && PushUsers(w, at, users, orders, msg) == (w1, resp)
  {
    assert users[..|users|] == users;
  }

  function Successes(results: seq<PushResult>): nat {
    if results == [] then 0
    else Successes(results[..|results| - 1]) + if results[|results| - 1].success then 1 else 0
  }

  lemma SuccessesGrow(results: seq<PushResult>, r: PushResult)
    ensures Successes(results + [r]) == Successes(results) + if r.success then 1 else 0
  {
    assert (results + [r])[..|results|] == results;
  }

  lemma AppendTallies(resp: PushDataResp, r: PushResult)
    requires resp.successCount == Successes(resp.results) && resp.successCount + resp.failCount == |resp.results|
    ensures var resp' := AppendResult(resp, r);
            && resp'.results == resp.results + [r]
            && resp'.successCount == Successes(resp'.results)
            && resp'.successCount + resp'.failCount == |resp'.results|
  {
    SuccessesGrow(resp.results, r);
  }

  lemma ResultNamesUser(w: World, at: string, user: string, ids: seq<string>, msg: Message)
    requires at in w.hubs && Keyed(w.db)
    ensures RouteUser(w, at, user, ids, msg).1.userID == user
  {
  }

  /** Whatever fails: one result per user, in order, carrying its user's ID; the two
      counters add up to the number of results and count the successes. */
  lemma {:induction false} PushTalliesAddUp(w: World, at: string, users: seq<string>, orders: seq<seq<string>>,
      msg: Message)
    requires at in w.hubs && Keyed(w.db) && |orders| == |users|
    ensures var resp := PushUsers(w, at, users, orders, msg).1;
            && |resp.results| == |users|
            && (forall i :: 0 <= i < |users| ==> resp.results[i].userID == users[i])
            && resp.successCount == Successes(resp.results)
            && resp.successCount + resp.failCount == |resp.results|
  {
    if users != [] {
      var n := |users| - 1;
      PushTalliesAddUp(w, at, users[..n], orders[..n], msg);
      var (w1, resp) := PushUsers(w, at, users[..n], orders[..n], msg);
      var r := RouteUser(w1, at, users[n], orders[n], msg).1;
      ResultNamesUser(w1, at, users[n], orders[n], msg);
      AppendTallies(resp, r);
      assert PushUsers(w, at, users, orders, msg).1 == AppendResult(resp, r);
    }
  }

  // ----- the online view -----

  datatype UserOnlineStatus = UserOnlineStatus(
    userID: string, isOnline: bool, connectionCount: int, lastActiveTime: int)

  /** The running maximum, from zero. */
  function LatestActivity(metas: seq<ConnectionMeta>): int {
    if metas == [] then 0 else
    var latest, meta := LatestActivity(metas[..|metas| - 1]), metas[|metas| - 1];
    if meta.lastActiveAt > latest then meta.lastActiveAt else latest
  }

  /** Every error reads as offline. */
  function StatusOf(user: string, listed: Result<seq<ConnectionMeta>>): UserOnlineStatus {
    match listed
    case Err(_) => UserOnlineStatus(user, false, 0, 0)
    case Ok(metas) => UserOnlineStatus(user, |metas| > 0, |metas|, LatestActivity(metas))
  }

  /** One status per named user; `orders` are the answers of Redis. */
  function CheckUsers(db: Db, users: seq<string>, orders: seq<seq<string>>): (Db, seq<UserOnlineStatus>)
    requires |orders| == |users|
  {
    if users == [] then (db, []) else
    var n := |users| - 1;
    var (db1, statuses) := CheckUsers(db, users[..n], orders[..n]);
    if users[n] == "" then (db1, statuses) else
    var (db2, listed) := S.ListByUser(db1, users[n], orders[n]);
    (db2, statuses + [StatusOf(users[n], listed)])
  }

  /** Each order lists the user's set as it is when that user's turn comes. */
  ghost predicate ListsInTurn(db: Db, users: seq<string>, orders: seq<seq<string>>) {
    |orders| == |users| && forall i :: 0 <= i < |users| ==> ListsAt(db, users, orders, i)
  }

  ghost predicate ListsAt(db: Db, users: seq<string>, orders: seq<seq<string>>, i: nat)
    requires i < |users| == |orders|
  {
    users[i] != "" ==> Enumerates(orders[i], Members(CheckUsers(db, users[..i], orders[..i]).0, users[i]))
  }

  /** One more user, at the end of the list. */
  lemma NextChecked(db: Db, users: seq<string>, orders: seq<seq<string>>, user: string, ids: seq<string>)
    requires ListsInTurn(db, users, orders)
    requires user != "" ==> Enumerates(ids, Members(CheckUsers(db, users, orders).0, user))
    ensures ListsInTurn(db, users + [user], orders + [ids])
    ensures var (db1, statuses) := CheckUsers(db, users, orders);
            var (db2, listed) := S.ListByUser(db1, user, ids);
            CheckUsers(db, users + [user], orders + [ids]) ==
            if user == "" then (db1, statuses) else (db2, statuses + [StatusOf(user, listed)])
  {
    var users', orders' := users + [user], orders + [ids];
    assert users'[..|users|] == users && orders'[..|users|] == orders;
    forall i | 0 <= i < |users'| ensures ListsAt(db, users', orders', i) {
      if i < |users| {
        assert ListsAt(db, users, orders, i);
        assert users'[..i] == users[..i] && orders'[..i] == orders[..i];
      }
    }
  }

  /** Whatever the listing says: a user is online iff connections are counted, and an
      offline user has no activity. */
  lemma StatusCoherent(user: string, listed: Result<seq<ConnectionMeta>>)
    ensures var s := StatusOf(user, listed);
            && s.userID == user
            && (s.isOnline <==> s.connectionCount > 0) && s.connectionCount >= 0
            && (!s.isOnline ==> s.lastActiveTime == 0)
            && (listed.Err? ==> !s.isOnline)
  {
  }

  lemma {:induction false} LatestIsMaximum(metas: seq<ConnectionMeta>)
    ensures 0 <= LatestActivity(metas)
    ensures forall m :: m in metas ==> m.lastActiveAt <= LatestActivity(metas)
    ensures LatestActivity(metas) == 0 || exists m :: m in metas && m.lastActiveAt == LatestActivity(metas)
  {
    if metas != [] {
      var n := |metas| - 1;
      LatestIsMaximum(metas[..n]);
      assert metas == metas[..n] + [metas[n]];
    }
  }

  /** `s` is what a scan of all facts says about the user: online iff a route exists,
      with their number and the latest activity, never below zero. */
  ghost predicate ViewsExactly(db: Db, user: string, s: UserOnlineStatus) {
    var ids := OwnedIds(db, user);
    && s.userID == user
    && (s.isOnline <==> ids != {})
    && s.connectionCount == |ids|
    && 0 <= s.lastActiveTime
    && (forall id :: id in ids ==> S.Seen(db, id).value.lastActiveAt <= s.lastActiveTime)
    && (s.lastActiveTime == 0 || exists id :: id in ids && S.Seen(db, id).value.lastActiveAt == s.lastActiveTime)
  }

  lemma {:induction false} CountDistinct(metas: seq<ConnectionMeta>)
    requires DistinctIDs(metas)
    ensures |IDsOf(metas)| == |metas|
  {
    if metas != [] {
      var n := |metas| - 1;
      CountDistinct(metas[..n]);
      assert forall m :: m in metas <==> m in metas[..n] || m == metas[n];
      assert IDsOf(metas) == IDsOf(metas[..n]) + {metas[n].connectionID};
      assert metas[n].connectionID !in IDsOf(metas[..n]);
    }
  }

  lemma OnlineViewExact(db: Db, user: string, ids: seq<string>, span: int)
    requires R.Sound(db, span) && Enumerates(ids, Members(db, user)) && user != ""
    ensures ViewsExactly(db, user, StatusOf(user, S.ListByUser(db, user, ids).1))
  {
    R.SoundAnswers(db, user, ids, span);
    var r := S.ListByUser(db, user, ids).1;
    if r.Ok? {
      var metas := r.value;
      LatestIsMaximum(metas);
      CountDistinct(metas);
      forall id | id in OwnedIds(db, user)
        ensures S.Seen(db, id).value in metas && S.Seen(db, id).value.connectionID == id
      {
        SeenCarriesItsKey(db, id);
      }
      assert IDsOf(metas) == OwnedIds(db, user);
    }
  }

  function Asked(users: seq<string>): seq<string> {
    if users == [] then []
    else Asked(users[..|users| - 1]) + if users[|users| - 1] == "" then [] else [users[|users| - 1]]
  }

  /** Without failures, checking any list of users gives one status per non-empty ID,
      in order, each exactly what a scan of all facts says; no fact changes. */
  lemma {:induction false} CheckUsersExact(db: Db, users: seq<string>, orders: seq<seq<string>>, span: int)
    requires R.Sound(db, span) && ListsInTurn(db, users, orders)
    ensures var (db', statuses) := CheckUsers(db, users, orders);
            && R.Sound(db', span) && db'.facts == db.facts && db'.now == db.now
            && |statuses| == |Asked(users)|
            && forall j :: 0 <= j < |statuses| ==> ViewsExactly(db, Asked(users)[j], statuses[j])
  {
    if users != [] {
      var n := |users| - 1;
      ListsInTurnPrefix(db, users, orders);
      CheckUsersExact(db, users[..n], orders[..n], span);
      if users[n] != "" {
        var db1 := CheckUsers(db, users[..n], orders[..n]).0;
        OnlineViewExact(db1, users[n], orders[n], span);
        ListQuiet(db1, users[n], orders[n]);
        R.RepairKeeps(db1, users[n], span);
        SameFactsSameView(db, db1, users[n], StatusOf(users[n], S.ListByUser(db1, users[n], orders[n]).1));
      }
    }
  }

  lemma ListsInTurnPrefix(db: Db, users: seq<string>, orders: seq<seq<string>>)
    requires ListsInTurn(db, users, orders) && users != []
    ensures var n := |users| - 1; ListsInTurn(db, users[..n], orders[..n]) && ListsAt(db, users, orders, n)
  {
    var n := |users| - 1;
    forall i | 0 <= i < n ensures ListsAt(db, users[..n], orders[..n], i) {
      assert ListsAt(db, users, orders, i);
      assert users[..n][..i] == users[..i] && orders[..n][..i] == orders[..i];
    }
  }

  lemma SameFactsSameView(db: Db, db': Db, user: string, s: UserOnlineStatus)
    requires db'.facts == db.facts && db'.now == db.now && ViewsExactly(db', user, s)
    ensures ViewsExactly(db, user, s)
  {
    assert OwnedIds(db', user) == OwnedIds(db, user);
    assert forall id :: S.Seen(db', id) == S.Seen(db, id);
  }

  // ----- the online view and the router agree -----

  /** A connection push is never answered with "offline". */
  lemma {:induction false} NeverOfflineHere(w: World, at: string, id: string, msg: Message)
    requires at in w.hubs && Keyed(w.db)
    ensures !RouteConnection(w, at, id, msg).resp.status.NoopOffline?
    decreases Hops(w.db, at, id), 0
  {
    if id != "" && id !in w.hubs[at] {
      S.GetOnlyReads(w.db, id);
      var (db1, got) := S.GetMeta(w.db, id);
      if got.Ok? && got.value.gatewayAddr != at { NeverOfflineThere(w.(db := db1), got.value.gatewayAddr, id, msg); }
    }
  }

  lemma {:induction false} NeverOfflineThere(w: World, addr: string, id: string, msg: Message)
    requires Keyed(w.db)
    ensures !PushRemote(w, addr, id, msg).resp.status.NoopOffline?
    decreases Hops(w.db, addr, id), 1
  {
    if addr in w.hubs && !NextLink(w).Unreachable? { NeverOfflineHere(ConsumeLink(w), addr, id, msg); }
  }

  function Decisive(s: Summary): nat { s.successCount + s.failCount + s.staleCount }

  lemma RouteMetaCounts(w: World, at: string, meta: ConnectionMeta, msg: Message, s: Summary)
    requires at in w.hubs && Keyed(w.db) && meta.connectionID != ""
    ensures Decisive(RouteMeta(w, at, meta, msg, s).1) == Decisive(s) + 1
  {
    if meta.gatewayAddr != at { NeverOfflineThere(w, meta.gatewayAddr, meta.connectionID, msg); }
  }

  /** Whatever fails, every listed route ends in a success, a failure or a cleanup. */
  lemma {:induction false} EveryRouteCounts(w: World, at: string, metas: seq<ConnectionMeta>, msg: Message)
    requires at in w.hubs && Keyed(w.db) && forall m :: m in metas ==> m.connectionID != ""
    ensures Decisive(RouteAll(w, at, metas, msg).1) == |metas|
  {
    if metas != [] {
      var n := |metas| - 1;
      EveryRouteCounts(w, at, metas[..n], msg);
      var (w1, s) := RouteAll(w, at, metas[..n], msg);
      assert metas[n] in metas;
      RouteMetaCounts(w1, at, metas[n], msg, s);
    }
  }

  /** At the same state, with the same failures to come, CheckUserOnline says offline
      exactly when RouteUser answers NOOP_OFFLINE, if and only if none of the reads of the
      listing fails. Else the user reads as offline and the push as failed. */
  lemma OnlineAgreesWithRoutingIff(w: World, at: string, user: string, ids: seq<string>, msg: Message)
    requires at in w.hubs && Keyed(w.db) && user != "" && Enumerates(ids, Members(w.db, user))
    ensures var offline := !StatusOf(user, S.ListByUser(w.db, user, ids).1).isOnline;
            var r := RouteUser(w, at, user, ids, msg).1;
            && ((offline <==> r.status.NoopOffline?) <==> !RF.ListingFails(w.db, user))
            && (RF.ListingFails(w.db, user) ==> offline && r.status.StatusFailed?)
  {
    RF.ListingFailsIff(w.db, user, ids);
    var (db1, listed) := S.ListByUser(w.db, user, ids);
    if listed.Ok? {
      ListStaysKeyed(w.db, user, ids);
      RS.ScanSees(Read(w.db).0, user, ids);
      EveryRouteCounts(w.(db := db1), at, listed.value, msg);
    }
  }

  /** Without failures the two always agree. */
  lemma OnlineAgreesWhenQuiet(w: World, at: string, user: string, ids: seq<string>, msg: Message)
    requires at in w.hubs && Keyed(w.db) && user != "" && Enumerates(ids, Members(w.db, user)) && w.db.script == []
    ensures !StatusOf(user, S.ListByUser(w.db, user, ids).1).isOnline <==>
            RouteUser(w, at, user, ids, msg).1.status.NoopOffline?
  {
    OnlineAgreesWithRoutingIff(w, at, user, ids, msg);
  }

  /** With one refused command a user with an open, routable connection reads as offline
      while the push fails. */
  lemma ConnectedUserReadsOffline(at: string, msg: Message)
    requires at != ""
    ensures var meta := R.SampleMeta("live").(gatewayAddr := at);
            var db := Db(0, map["live" := Fact(meta, 1)], map["user" := Index({"live"}, None)], [Refused]);
            var w := World(db, map[at := map["live" := ConnState("user", [], false, 0)]], []);
            && Owns(db, "user", "live") && Enumerates(["live"], Members(db, "user"))
            && !StatusOf("user", S.ListByUser(db, "user", ["live"]).1).isOnline
            && RouteUser(w, at, "user", ["live"], msg).1
               == PushResult("user", false, StatusFailed, 0, ErrorText(RedisFailure))
  {
  }
}
