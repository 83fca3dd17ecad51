/** The writers of the route store when Redis commands fail in any pattern, and
    what a refresh keeps over whole runs. */
module RouteFailures {
  import opened RouteModel
  import opened Redis
  import S = RouteSpec
  import opened RouteReads
  import opened RouteRuns

  // ----- what no failure can break -----

  /** Whatever fails, a registration leaves every other fact alone and its own as it
      was, stored, or removed. */
  lemma RegisterFacts(conf: S.StoreConf, db: Db, meta: ConnectionMeta)
    ensures var db' := S.Register(conf, db, meta).0;
            var id := meta.connectionID;
            && db'.now == db.now
            && (|| db'.facts == db.facts
                || db'.facts == db.facts[id := Fact(S.Normalize(conf, db.now, meta), db.now + conf.ttl)]
                || db'.facts == db.facts - {id})
  {
    if meta.userID == "" || meta.connectionID == "" { return; }
    var m := S.Normalize(conf, db.now, meta);
    var (db1, stored) := Write(db, SetFact(db, m.connectionID, m, conf.ttl));
    WriteFacts(db, SetFact(db, m.connectionID, m, conf.ttl));
    if stored {
      var (db2, indexed) := Write(db1, AddMember(db1, m.userID, m.connectionID));
      WriteFacts(db1, AddMember(db1, m.userID, m.connectionID));
      WriteFacts(db2, ExpireSet(db2, m.userID, conf.ttl * 2));
      WriteFacts(db2, DropFact(db2, m.connectionID));
      assert db1.facts - {m.connectionID} == db.facts - {m.connectionID};
    }
  }

  lemma WriteFacts(db: Db, after: Db)
    requires after.now == db.now
    ensures var (db', ok) := Write(db, after);
            && db'.now == db.now
            && (db'.facts == db.facts || db'.facts == after.facts)
            && (ok ==> db'.facts == after.facts)
  {
  }

  /** Records stay under their own key, whatever fails. */
  lemma RegisterStaysKeyed(conf: S.StoreConf, db: Db, meta: ConnectionMeta)
    requires Keyed(db)
    ensures Keyed(S.Register(conf, db, meta).0)
  {
    RegisterFacts(conf, db, meta);
  }

  lemma RefreshStaysKeyed(conf: S.StoreConf, db: Db, user: string, id: string)
    requires Keyed(db)
    ensures Keyed(S.Refresh(conf, db, user, id).0)
  {
    var (db1, got) := S.GetMeta(db, id);
    assert db1 == db.(script := db1.script);
    if got.Ok? {
      var m := S.Normalize(conf, db1.now, if user != "" then got.value.(userID := user) else got.value);
      RegisterStaysKeyed(conf, db1, m);
    }
  }

  lemma {:induction false} ExecStaysKeyed(db: Db, op: Op)
    requires Keyed(db)
    ensures Keyed(Exec(db, op))
  {
    match op
    case Tick(_) =>
    case Register(conf, meta) => RegisterStaysKeyed(conf, db, meta);
    case Refresh(conf, user, id) => RefreshStaysKeyed(conf, db, user, id);
    case List(user, ids) => S.ListKeepsFacts(db, user, ids);
    case Cleanup(user, id) => S.CleanupFacts(db, user, id);
    case Sweep(user, ids) => S.SweepKeepsFacts(db, user, ids);
  }

  /** A refresh never makes a fact readable that was not, and rewrites no other fact. */
  lemma RefreshCreatesNothing(conf: S.StoreConf, db: Db, user: string, id: string)
    requires Keyed(db)
    ensures var db' := S.Refresh(conf, db, user, id).0;
            && (S.Seen(db', id).Some? ==> S.Seen(db, id).Some?)
            && (forall x :: x != id ==> S.Seen(db', x) == S.Seen(db, x))
  {
    var (db1, got) := S.GetMeta(db, id);
    assert db1 == db.(script := db1.script);
    if got.Ok? {
      var m := S.Normalize(conf, db1.now, if user != "" then got.value.(userID := user) else got.value);
      assert m.connectionID == id;
      RegisterFacts(conf, db1, m);
    }
  }

  /** A registration that reports success is readable and indexed, even when setting
      the index expiry failed. */
  lemma RegisterReportsTruth(conf: S.StoreConf, db: Db, meta: ConnectionMeta)
    requires S.Register(conf, db, meta).1 == None && S.Normalize(conf, db.now, meta).gatewayAddr != ""
    ensures var db' := S.Register(conf, db, meta).0;
            && S.Seen(db', meta.connectionID) == Some(S.Normalize(conf, db.now, meta))
            && meta.connectionID in Members(db', meta.userID)
  {
    var m := S.Normalize(conf, db.now, meta);
    var db1 := Write(db, SetFact(db, m.connectionID, m, conf.ttl)).0;
    var db2 := Write(db1, AddMember(db1, m.userID, m.connectionID)).0;
    assert S.Seen(db2, m.connectionID) == Some(m) && m.connectionID in Members(db2, m.userID);
    ExpiryKeepsRoute(db2, m, conf.ttl * 2);
  }

  /** Renewing the set, or failing to, takes nothing out of it. */
  lemma ExpiryKeepsRoute(db: Db, m: ConnectionMeta, ttl: Duration)
    requires S.Seen(db, m.connectionID) == Some(m) && m.connectionID in Members(db, m.userID)
    ensures var db' := Write(db, ExpireSet(db, m.userID, ttl)).0;
            S.Seen(db', m.connectionID) == Some(m) && m.connectionID in Members(db', m.userID)
  {
  }

  // ----- what failures can break, exactly -----

  /** A refresh of a live route loses it iff the record was read and stored, adding
      it to the index reported an error, and the rollback's delete took effect. */
  lemma RefreshLosesRouteIff(conf: S.StoreConf, db: Db, user: string, id: string)
    requires Keyed(db) && S.Seen(db, id).Some? && S.Seen(db, id).value.userID != ""
    requires user == "" || user == S.Seen(db, id).value.userID
    ensures S.Seen(S.Refresh(conf, db, user, id).0, id).None? <==>
            && OutcomeAt(db, 0).Done? && OutcomeAt(db, 1).Done?
            && !OutcomeAt(db, 2).Done? && !OutcomeAt(db, 3).Refused?
  {
    var meta := S.Seen(db, id).value;
    var (db1, got) := S.GetMeta(db, id);
    if OutcomeAt(db, 0).Done? {
      assert got == Ok(meta);
      var m := S.Normalize(conf, db1.now, S.Normalize(conf, db1.now, meta));
      assert m.connectionID == id && m.gatewayAddr != "";
      RegisterVisibleIff(conf, db1, S.Normalize(conf, db1.now, meta));
      assert forall k: nat :: OutcomeAt(db1, k) == OutcomeAt(db, k + 1);
    }
  }

  /** When a registration leaves its record readable, given it was readable before. */
  lemma RegisterVisibleIff(conf: S.StoreConf, db: Db, meta: ConnectionMeta)
    requires meta.userID != "" && meta.connectionID != "" && meta.gatewayAddr != ""
    requires S.Seen(db, meta.connectionID).Some?
    ensures S.Seen(S.Register(conf, db, meta).0, meta.connectionID).None? <==>
            OutcomeAt(db, 0).Done? && !OutcomeAt(db, 1).Done? && !OutcomeAt(db, 2).Refused?
  {
    var m := S.Normalize(conf, db.now, meta);
    var (db1, stored) := Write(db, SetFact(db, m.connectionID, m, conf.ttl));
    assert S.Seen(db1, m.connectionID).Some?;
    assert stored ==> NextOutcome(db1) == OutcomeAt(db, 1);
    if stored {
      var (db2, indexed) := Write(db1, AddMember(db1, m.userID, m.connectionID));
      assert S.Seen(db2, m.connectionID).Some?;
      assert NextOutcome(db2) == OutcomeAt(db, 2);
    }
  }

  /** A cleanup that failed half way is completed by a retry: the end state is that
      of one cleanup that never failed. */
  lemma CleanupRetryCompletes(db: Db, user: string, id: string)
    ensures var broken := S.Cleanup(db, user, id).0.(script := []);
            S.Cleanup(broken, user, id).0 == S.Cleanup(db.(script := []), user, id).0
  {
    var db0 := db.(script := []);
    var broken := S.Cleanup(db, user, id).0.(script := []);
    var once := RemoveMembers(db0, user, {id});
    RemoveTwice(db0, user, {id});
    CleanupShape(db, user, id);
    if id != "" {
      assert broken.facts - {id} == db.facts - {id};
    }
  }

  /** Where a failing cleanup can stop. */
  lemma CleanupShape(db: Db, user: string, id: string)
    ensures var db0 := db.(script := []);
            var db' := S.Cleanup(db, user, id).0.(script := []);
            var unindexed := if user == "" then db0 else RemoveMembers(db0, user, {id});
            || db' == db0 || db' == unindexed
            || (id != "" && db' == DropFact(unindexed, id))
  {
    if id != "" {
      var (db1, ok) := if user == "" then (db, true) else Write(db, RemoveMembers(db, user, {id}));
      WriteShape(db, RemoveMembers(db, user, {id}));
      WriteShape(db1, DropFact(db1, id));
    }
  }

  lemma WriteShape(db: Db, after: Db)
    ensures var (db', ok) := Write(db, after);
            && (db'.(script := []) == db.(script := []) || db'.(script := []) == after.(script := []))
            && (ok ==> db'.(script := []) == after.(script := []))
  {
  }

  lemma RemoveTwice(db: Db, user: string, ids: set<string>)
    ensures RemoveMembers(RemoveMembers(db, user, ids), user, ids) == RemoveMembers(db, user, ids)
  {
    var db' := RemoveMembers(db, user, ids);
    if HasSet(db', user) {
      var left := db'.index[user];
      assert left.members - ids == left.members;
      assert left.(members := left.members - ids) == left;
      assert db'.index[user := left] == db'.index;
    }
  }

  // ----- a route keeps its identity -----

  /** Complete records, as Register writes them when the gateway has an address. */
  predicate Complete(meta: ConnectionMeta, id: string, now: int) {
    && meta.userID != "" && meta.connectionID == id && id != ""
    && meta.gatewayAddr != "" && meta.gatewayID != ""
    && meta.loginAt != 0 && meta.lastActiveAt <= Unix(now)
  }

  /** Everything but the activity time. */
  predicate SameIdentity(a: ConnectionMeta, b: ConnectionMeta) { a.(lastActiveAt := b.lastActiveAt) == b }

  /** Operations that replace or delete the record of `id` as a whole. */
  predicate Replaces(op: Op, id: string) {
    (op.Register? && op.meta.connectionID == id) || (op.Cleanup? && op.id == id)
  }

  /** A refresh succeeds iff the record is readable and the caller does not name
      another user; it then renews exactly that record and re-indexes it. */
  lemma RefreshExact(conf: S.StoreConf, db: Db, user: string, id: string)
    requires db.script == [] && id in db.facts && Complete(db.facts[id].meta, id, db.now)
    ensures var (db', err) := S.Refresh(conf, db, user, id);
            var meta := db.facts[id].meta;
            && (err == None <==> db.now < db.facts[id].expiry && (user == "" || user == meta.userID))
            && (err != None ==> db' == db)
            && (err == None ==>
                db' == Registered(conf, db, meta) &&
                db'.facts[id] == Fact(meta.(lastActiveAt := Unix(db.now)), db.now + conf.ttl) &&
                id in Members(db', meta.userID) &&
                db'.index[meta.userID].expiry == Some(db.now + conf.ttl * 2))
  {
    RefreshQuiet(conf, db, user, id);
    var meta := db.facts[id].meta;
    if db.now < db.facts[id].expiry && (user == "" || user == meta.userID) {
      RegisterQuiet(conf, db, S.Normalize(conf, db.now, meta));
    }
  }

  lemma RefreshFacts(conf: S.StoreConf, db: Db, user: string, x: string)
    requires Keyed(db)
    ensures var db' := S.Refresh(conf, db, user, x).0;
            && db'.now == db.now
            && forall id :: id != x && id in db.facts ==> id in db'.facts && db'.facts[id] == db.facts[id]
  {
    var (db1, got) := S.GetMeta(db, x);
    assert db1 == db.(script := db1.script);
    if got.Ok? {
      var m := S.Normalize(conf, db1.now, if user != "" then got.value.(userID := user) else got.value);
      assert m.connectionID == x;
      RegisterFacts(conf, db1, m);
    }
  }

  lemma ExecStaysQuiet(db: Db, op: Op)
    requires db.script == [] && Allowed(db, op)
    ensures Exec(db, op).script == []
  {
    match op
    case Tick(_) =>
    case Register(conf, meta) => RegisterQuiet(conf, db, meta);
    case Refresh(conf, user, x) => RefreshQuiet(conf, db, user, x);
      if S.Seen(db, x).Some? {
        var meta := S.Seen(db, x).value;
        RegisterQuiet(conf, db, S.Normalize(conf, db.now, if user != "" then meta.(userID := user) else meta));
      }
    case List(user, ids) => if user != "" { ListQuiet(db, user, ids); }
    case Cleanup(user, x) => if x != "" { CleanupExact(db, user, x); }
    case Sweep(user, ids) => SweepQuiet(db, user, ids);
  }

  lemma ExecKeepsIdentity(db: Db, op: Op, id: string)
    requires db.script == [] && Keyed(db) && id in db.facts && Complete(db.facts[id].meta, id, db.now)
    requires Allowed(db, op) && !Replaces(op, id)
    ensures var db' := Exec(db, op);
            && db'.script == [] && Keyed(db') && id in db'.facts && Complete(db'.facts[id].meta, id, db'.now)
            && SameIdentity(db.facts[id].meta, db'.facts[id].meta)
            && db.facts[id].meta.lastActiveAt <= db'.facts[id].meta.lastActiveAt
  {
    ExecStaysKeyed(db, op);
    ExecStaysQuiet(db, op);
    match op
    case Tick(_) =>
    case Register(conf, meta) => RegisterFacts(conf, db, meta);
    case Refresh(conf, user, x) =>
      if x == id {
        RefreshExact(conf, db, user, id);
      } else {
        RefreshFacts(conf, db, user, x);
      }
    case List(user, ids) => S.ListKeepsFacts(db, user, ids);
    case Cleanup(user, x) => S.CleanupFacts(db, user, x);
    case Sweep(user, ids) => S.SweepKeepsFacts(db, user, ids);
  }

  /** Over any run that neither re-registers nor cleans up `id`, refreshes from any
      gateways leave the record's identity as it was and its activity time never
      goes back. */
  lemma {:induction false} RunKeepsIdentity(db: Db, ops: seq<Op>, id: string)
    requires db.script == [] && Keyed(db) && id in db.facts && Complete(db.facts[id].meta, id, db.now)
    requires Legal(db, ops) && forall op :: op in ops ==> !Replaces(op, id)
    ensures var db' := Run(db, ops);
            && db'.script == [] && Keyed(db') && id in db'.facts && Complete(db'.facts[id].meta, id, db'.now)
            && SameIdentity(db.facts[id].meta, db'.facts[id].meta)
            && db.facts[id].meta.lastActiveAt <= db'.facts[id].meta.lastActiveAt
  {
    if ops != [] {
      var n := |ops| - 1;
      RunKeepsIdentity(db, ops[..n], id);
      assert !Replaces(ops[n], id);
      ExecKeepsIdentity(Run(db, ops[..n]), ops[n], id);
    }
  }

  // ----- when a listing fails -----

  function NonBlank(ids: set<string>): set<string> { set id | id in ids && !Blank(id) }

  /** One of the reads a listing makes will report an error: SMEMBERS, then one read for
      each ID of the set that is not blank. */
  predicate ListingFails(db: Db, user: string) {
    user != "" && !AllDone(db, 1 + |NonBlank(Members(db, user))|)
  }

  /** The next `n` commands report no error. */
  predicate AllDone(db: Db, n: nat) { forall k :: 0 <= k < n ==> OutcomeAt(db, k).Done? }

  function Reads(ids: seq<string>): nat {
    if ids == [] then 0 else Reads(ids[..|ids| - 1]) + if Blank(ids[|ids| - 1]) then 0 else 1
  }

  lemma {:induction false} ReadsCount(ids: seq<string>)
    requires NoDuplicates(ids)
    ensures Reads(ids) == |NonBlank(set id | id in ids)|
  {
    if ids != [] {
      var n := |ids| - 1;
      ReadsCount(ids[..n]);
      var (front, all) := (NonBlank(set id | id in ids[..n]), NonBlank(set id | id in ids));
      assert forall id :: id in ids <==> id in ids[..n] || id == ids[n];
      assert all == if Blank(ids[n]) then front else front + {ids[n]};
      assert ids[n] !in front;
    }
  }

  function ScriptAfter(db: Db, n: nat): seq<Outcome> { if n <= |db.script| then db.script[n..] else [] }

  lemma OneRead(db: Db, db1: Db, n: nat)
    requires db1.script == ScriptAfter(db, n)
    ensures NextOutcome(db1) == OutcomeAt(db, n) && Consume(db1).script == ScriptAfter(db, n + 1)
    ensures AllDone(db, n + 1) <==> AllDone(db, n) && OutcomeAt(db, n).Done?
  {
  }

  lemma {:induction false} ScanFailsIff(db: Db, user: string, ids: seq<string>)
    ensures var (db', r) := S.Scan(db, user, ids);
            && (r.Ok? <==> AllDone(db, Reads(ids)))
            && (r.Err? ==> r.error.RedisFailure?)
            && (r.Ok? ==> db'.script == ScriptAfter(db, Reads(ids)))
  {
    if ids != [] {
      var n := |ids| - 1;
      ScanFailsIff(db, user, ids[..n]);
      var (db1, r) := S.Scan(db, user, ids[..n]);
      if r.Ok? && !Blank(ids[n]) {
        S.GetOnlyReads(db1, ids[n]);
        OneRead(db, db1, Reads(ids[..n]));
      }
    }
  }

  /** A listing reports something other than its routes or their absence iff one of its
      reads does. */
  lemma ListingFailsIff(db: Db, user: string, ids: seq<string>)
    requires Enumerates(ids, Members(db, user))
    ensures var listed := S.ListByUser(db, user, ids).1;
            ListingFails(db, user) <==> listed.Err? && !listed.error.NoLiveConnections?
  {
    assert (set id | id in ids) == Members(db, user);
    ReadsCount(ids);
    ScanFailsIff(Read(db).0, user, ids);
    FirstRead(db, Reads(ids));
  }

  lemma FirstRead(db: Db, n: nat)
    ensures AllDone(db, 1 + n) <==> NextOutcome(db).Done? && AllDone(Consume(db), n)
  {
    assert OutcomeAt(db, 0) == NextOutcome(db);
    forall k: nat ensures OutcomeAt(Consume(db), k) == OutcomeAt(db, 1 + k) {}
    if NextOutcome(db).Done? && AllDone(Consume(db), n) {
      forall k | 0 <= k < 1 + n ensures OutcomeAt(db, k).Done? {
        if k > 0 { assert OutcomeAt(Consume(db), k - 1).Done?; }
      }
    }
  }

  // ----- what the callers are told, whatever fails -----

  /** A registration succeeds iff it names user and connection and its two writes report no
      error, whatever setting the index expiry does; a refused one changes nothing. */
  lemma RegisterAnswers(conf: S.StoreConf, db: Db, meta: ConnectionMeta)
    ensures var (db', err) := S.Register(conf, db, meta);
            var named := meta.userID != "" && meta.connectionID != "";
            && (err == None <==> named && OutcomeAt(db, 0).Done? && OutcomeAt(db, 1).Done?)
            && (err == Some(InvalidArgument) <==> !named)
            && (err == Some(RedisFailure) <==> named && !(OutcomeAt(db, 0).Done? && OutcomeAt(db, 1).Done?))
            && (!named ==> db' == db)
  {
    if meta.userID != "" && meta.connectionID != "" {
      var m := S.Normalize(conf, db.now, meta);
      var (db1, stored) := Write(db, SetFact(db, m.connectionID, m, conf.ttl));
      assert stored ==> NextOutcome(db1) == OutcomeAt(db, 1);
    }
  }

  /** How long the set lives after a registration that succeeds: twice the TTL, unless setting
      the expiry is refused. Then an existing set keeps the expiry it had and a new one has
      none. */
  lemma SetLivesOn(conf: S.StoreConf, db: Db, meta: ConnectionMeta)
    requires S.Register(conf, db, meta).1 == None
    ensures var (db', user) := (S.Register(conf, db, meta).0, meta.userID);
            && user in db'.index
            && db'.index[user].members == Members(db, user) + {meta.connectionID}
            && db'.index[user].expiry ==
               if !OutcomeAt(db, 2).Refused? then Some(db.now + conf.ttl * 2)
               else if HasSet(db, user) then db.index[user].expiry
               else None
  {
    RegisterAnswers(conf, db, meta);
    var m := S.Normalize(conf, db.now, meta);
    var db1 := Write(db, SetFact(db, m.connectionID, m, conf.ttl)).0;
    var db2 := Write(db1, AddMember(db1, m.userID, m.connectionID)).0;
    assert NextOutcome(db1) == OutcomeAt(db, 1) && NextOutcome(db2) == OutcomeAt(db, 2);
    assert HasSet(db2, m.userID);
  }

  /** What a registration that succeeds makes readable: the record it was given, a missing
      gateway filled in from the store's own, stamped with the time of the call, the login
      time only if it had none. Without any gateway address it is not readable at all. */
  lemma RegisterStoresRecord(conf: S.StoreConf, db: Db, meta: ConnectionMeta)
    requires S.Register(conf, db, meta).1 == None
    ensures var seen := S.Seen(S.Register(conf, db, meta).0, meta.connectionID);
            && (seen.None? <==> meta.gatewayAddr == conf.gatewayAddr == "")
            && (seen.Some? ==>
                && seen.value.userID == meta.userID && seen.value.connectionID == meta.connectionID
                && seen.value.deviceID == meta.deviceID && seen.value.platform == meta.platform
                && seen.value.clientVersion == meta.clientVersion
                && (meta.gatewayAddr != "" ==> seen.value.gatewayAddr == meta.gatewayAddr)
                && (meta.gatewayAddr == "" ==> seen.value.gatewayAddr == conf.gatewayAddr)
                && (meta.gatewayID != "" ==> seen.value.gatewayID == meta.gatewayID)
                && (meta.gatewayID == "" ==> seen.value.gatewayID == conf.gatewayID)
                && seen.value.lastActiveAt == Unix(db.now)
                && (meta.loginAt != 0 ==> seen.value.loginAt == meta.loginAt)
                && (meta.loginAt == 0 ==> seen.value.loginAt == Unix(db.now)))
  {
    var m := S.Normalize(conf, db.now, meta);
    if m.gatewayAddr != "" {
      RegisterReportsTruth(conf, db, meta);
    } else {
      RegisterAnswers(conf, db, meta);
      var db1 := Write(db, SetFact(db, m.connectionID, m, conf.ttl)).0;
      var db2 := Write(db1, AddMember(db1, m.userID, m.connectionID)).0;
      assert S.Register(conf, db, meta).0.facts == db1.facts;
    }
  }

  /** A refresh says that the route is missing, that it belongs to another user, that Redis
      failed, or that it was renewed, and each exactly when it is so. */
  lemma RefreshAnswers(conf: S.StoreConf, db: Db, user: string, id: string)
    requires Keyed(db)
    ensures var err := S.Refresh(conf, db, user, id).1;
            var (seen, read) := (S.Seen(db, id), OutcomeAt(db, 0).Done?);
            var stranger := seen.Some? && user != "" && seen.value.userID != "" && seen.value.userID != user;
            var owned := seen.Some? && (user != "" || seen.value.userID != "") && !stranger;
            && (err == Some(ConnectionMissing) <==> id == "" || (read && seen.None?))
            && (err == Some(WrongOwner) <==> read && stranger)
            && (err == Some(InvalidArgument) <==> read && seen.Some? && !stranger && !owned)
            && (err == None <==> read && owned && OutcomeAt(db, 1).Done? && OutcomeAt(db, 2).Done?)
            && err != Some(NoLiveConnections)
  {
    S.GetOnlyReads(db, id);
    var (db1, got) := S.GetMeta(db, id);
    if got.Ok? {
      SeenCarriesItsKey(db, id);
      var m := if user != "" then got.value.(userID := user) else got.value;
      RegisterAnswers(conf, db1, S.Normalize(conf, db1.now, m));
      assert OutcomeAt(db1, 0) == OutcomeAt(db, 1) && OutcomeAt(db1, 1) == OutcomeAt(db, 2);
    }
  }

  /** A cleanup succeeds iff its commands do, or there is nothing to clean; then the fact and
      the named user's entry are gone. */
  lemma CleanupAnswers(db: Db, user: string, id: string)
    ensures var (db', err) := S.Cleanup(db, user, id);
            && (err == None <==>
                id == "" || (OutcomeAt(db, 0).Done? && (user == "" || OutcomeAt(db, 1).Done?)))
            && (err.Some? ==> err == Some(RedisFailure))
            && (err == None && id != "" ==> id !in db'.facts && (user != "" ==> id !in Members(db', user)))
  {
    if id != "" {
      var (db1, unindexed) := if user == "" then (db, true) else Write(db, RemoveMembers(db, user, {id}));
      assert user != "" && unindexed ==> NextOutcome(db1) == OutcomeAt(db, 1);
      RemoveMembersExact(db, user, {id}, user);
    }
  }

  // ----- the sweeper when reads fail -----

  function NamedIDs(ids: seq<string>): nat {
    if ids == [] then 0 else NamedIDs(ids[..|ids| - 1]) + if ids[|ids| - 1] == "" then 0 else 1
  }

  /** The sweeper takes the i-th ID out iff it cannot be read, or is not the user's. */
  predicate SweptAt(db: Db, user: string, ids: seq<string>, i: nat)
    requires i < |ids|
  {
    ids[i] == "" || !OutcomeAt(db, NamedIDs(ids[..i])).Done? || !Owns(db, user, ids[i])
  }

  lemma {:induction false} SweepScanScript(db: Db, user: string, ids: seq<string>)
    ensures S.SweepScan(db, user, ids).0.script == ScriptAfter(db, NamedIDs(ids))
  {
    if ids != [] {
      var n := |ids| - 1;
      SweepScanScript(db, user, ids[..n]);
      var db1 := S.SweepScan(db, user, ids[..n]).0;
      S.GetOnlyReads(db1, ids[n]);
      OneRead(db, db1, NamedIDs(ids[..n]));
    }
  }

  lemma SweepScanStep(db: Db, user: string, ids: seq<string>)
    requires ids != []
    ensures var n := |ids| - 1;
            var stale := S.SweepScan(db, user, ids[..n]).1;
            S.SweepScan(db, user, ids).1 == if SweptAt(db, user, ids, n) then stale + [ids[n]] else stale
  {
    var n := |ids| - 1;
    var db1 := S.SweepScan(db, user, ids[..n]).0;
    SweepScanScript(db, user, ids[..n]);
    S.ScanOnlyReads(db, user, ids[..n]);
    S.GetOnlyReads(db1, ids[n]);
    OneRead(db, db1, NamedIDs(ids[..n]));
  }

  lemma SweptAtPrefix(db: Db, user: string, ids: seq<string>, i: nat)
    requires i < |ids| - 1
    ensures SweptAt(db, user, ids, i) <==> SweptAt(db, user, ids[..|ids| - 1], i)
  {
    assert ids[..|ids| - 1][..i] == ids[..i];
  }

  lemma {:induction false} SweepScanListed(db: Db, user: string, ids: seq<string>)
    ensures forall id :: id in S.SweepScan(db, user, ids).1 ==> id in ids
  {
    if ids != [] {
      var n := |ids| - 1;
      SweepScanListed(db, user, ids[..n]);
      SweepScanStep(db, user, ids);
    }
  }

  lemma {:induction false} SweepScanAnswers(db: Db, user: string, ids: seq<string>, i: nat)
    requires NoDuplicates(ids) && i < |ids|
    ensures ids[i] in S.SweepScan(db, user, ids).1 <==> SweptAt(db, user, ids, i)
    decreases |ids|
  {
    var n := |ids| - 1;
    var stale := S.SweepScan(db, user, ids[..n]).1;
    SweepScanStep(db, user, ids);
    SweepScanListed(db, user, ids[..n]);
    assert ids[n] !in ids[..n];
    if i < n {
      SweepScanAnswers(db, user, ids[..n], i);
      SweptAtPrefix(db, user, ids, i);
      assert ids[..n][i] == ids[i];
    }
  }

  lemma {:induction false} SweepScanDistinct(db: Db, user: string, ids: seq<string>)
    requires NoDuplicates(ids)
    ensures NoDuplicates(S.SweepScan(db, user, ids).1)
  {
    if ids != [] {
      var n := |ids| - 1;
      SweepScanDistinct(db, user, ids[..n]);
      SweepScanListed(db, user, ids[..n]);
      SweepScanStep(db, user, ids);
      assert ids[n] !in ids[..n];
    }
  }

  /** The IDs a sweep takes out when it starts reading at `db`. */
  function SweptUnder(db: Db, user: string, ids: seq<string>): set<string> {
    set i | 0 <= i < |ids| && SweptAt(db, user, ids, i) :: ids[i]
  }

  lemma SweepScanIs(db: Db, user: string, ids: seq<string>)
    requires NoDuplicates(ids)
    ensures var stale := S.SweepScan(db, user, ids).1;
            (set id | id in stale) == SweptUnder(db, user, ids) && |stale| == |SweptUnder(db, user, ids)|
  {
    SweepScanListed(db, user, ids);
    SweepScanDistinct(db, user, ids);
    var stale := S.SweepScan(db, user, ids).1;
    forall i | 0 <= i < |ids| ensures ids[i] in stale <==> SweptAt(db, user, ids, i) {
      SweepScanAnswers(db, user, ids, i);
    }
    SetOfDistinct(stale);
  }

  /** A sweep under failures: it fails iff the listing or a needed removal does; it counts
      exactly the IDs it cannot read as the user's, and takes them out if it succeeds. */
  lemma CleanupStaleAnswers(db: Db, user: string, ids: seq<string>)
    requires Enumerates(ids, Members(db, user))
    ensures var (db', removed, err) := S.CleanupStale(db, user, ids);
            var swept := SweptUnder(Consume(db), user, ids);
            && (err == None <==>
                OutcomeAt(db, 0).Done? && (swept == {} || OutcomeAt(Consume(db), NamedIDs(ids)).Done?))
            && (err.Some? ==> err == Some(RedisFailure))
            && (err == None ==> Members(db', user) == Members(db, user) - swept)
            && removed == if OutcomeAt(db, 0).Done? then |swept| else 0
  {
    var db1 := Consume(db);
    var (db2, stale) := S.SweepScan(db1, user, ids);
    SweepScanIs(db1, user, ids);
    SweepScanScript(db1, user, ids);
    S.ScanOnlyReads(db1, user, ids);
    OneRead(db1, db2, NamedIDs(ids));
    RemoveMembersExact(db2, user, SweptUnder(db1, user, ids), user);
  }
}
