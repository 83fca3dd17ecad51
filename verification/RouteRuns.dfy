/** Runs of route-store operations, issued by any number of gateways with their
    own TTLs while the clock moves between operations: the index answers exactly
    like a scan of all facts, and it never expires before a fact it must list. */
module RouteRuns {
  import opened RouteModel
  import opened Redis
  import S = RouteSpec
  import opened RouteReads

  datatype Op =
    | Tick(elapsed: nat)
    | Register(conf: S.StoreConf, meta: ConnectionMeta)
    | Refresh(conf: S.StoreConf, user: string, id: string)
    | List(user: string, ids: seq<string>)
    | Cleanup(user: string, id: string)
    | Sweep(user: string, ids: seq<string>)

  function Exec(db: Db, op: Op): Db {
    match op
    case Tick(elapsed) => Redis.Tick(db, elapsed)
    case Register(conf, meta) => S.Register(conf, db, meta).0
    case Refresh(conf, user, id) => S.Refresh(conf, db, user, id).0
    case List(user, ids) => S.ListByUser(db, user, ids).0
    case Cleanup(user, id) => S.Cleanup(db, user, id).0
    case Sweep(user, ids) => S.CleanupStale(db, user, ids).0
  }

  /** Readers get the user's set in some order. */
  ghost predicate Allowed(db: Db, op: Op) {
    (op.List? || op.Sweep?) ==> Enumerates(op.ids, Members(db, op.user))
  }

  function Run(db: Db, ops: seq<Op>): Db {
    if ops == [] then db else Exec(Run(db, ops[..|ops| - 1]), ops[|ops| - 1])
  }

  ghost predicate Legal(db: Db, ops: seq<Op>) {
    ops == [] || (Legal(db, ops[..|ops| - 1]) && Allowed(Run(db, ops[..|ops| - 1]), ops[|ops| - 1]))
  }

  predicate Uses(op: Op, confs: set<S.StoreConf>) { (op.Register? || op.Refresh?) ==> op.conf in confs }

  predicate Empty(db: Db) { db.facts == map[] && db.index == map[] && db.script == [] }

  // ----- the invariant -----

  /** Every readable fact is in its owner's set, which outlives it. `span` bounds
      how far ahead of the clock a fact can expire. */
  ghost predicate Indexed(db: Db, span: int) {
    forall id :: id in db.facts && S.Seen(db, id).Some? ==> IndexedAt(db, span, id)
  }

  ghost predicate IndexedAt(db: Db, span: int, id: string)
    requires id in db.facts && S.Seen(db, id).Some?
  {
    var user := S.Seen(db, id).value.userID;
    && user != ""
    && db.facts[id].expiry <= db.now + span
    && id in Members(db, user)
    && (db.index[user].expiry.None? || db.facts[id].expiry <= db.index[user].expiry.value)
  }

  ghost predicate Sound(db: Db, span: int) { db.script == [] && Keyed(db) && Indexed(db, span) }

  /** The slack of the doubled index TTL: it must cover the longest fact TTL. */
  predicate Fits(conf: S.StoreConf, span: int) { conf.ttl <= span <= conf.ttl * 2 }

  // ----- what one operation keeps -----

  lemma TickKeeps(db: Db, elapsed: nat, span: int)
    requires Sound(db, span)
    ensures Sound(Redis.Tick(db, elapsed), span)
  {
    var db' := Redis.Tick(db, elapsed);
    forall id | id in db'.facts && S.Seen(db', id).Some?
      ensures IndexedAt(db', span, id)
    {
      assert S.Seen(db, id) == S.Seen(db', id);
      assert IndexedAt(db, span, id);
    }
  }

  /** The state a successful registration leaves. */
  function Registered(conf: S.StoreConf, db: Db, meta: ConnectionMeta): Db {
    var m := S.Normalize(conf, db.now, meta);
    db.(facts := db.facts[m.connectionID := Fact(m, db.now + conf.ttl)],
        index := db.index[m.userID := Index(Members(db, m.userID) + {m.connectionID},
                                            Some(db.now + conf.ttl * 2))])
  }

  lemma RegisterQuiet(conf: S.StoreConf, db: Db, meta: ConnectionMeta)
    requires db.script == []
    ensures S.Register(conf, db, meta) ==
            if meta.userID == "" || meta.connectionID == "" then (db, Some(InvalidArgument))
            else (Registered(conf, db, meta), None)
  {
    if meta.userID != "" && meta.connectionID != "" {
      var m := S.Normalize(conf, db.now, meta);
      var db1 := SetFact(db, m.connectionID, m, conf.ttl);
      var db2 := AddMember(db1, m.userID, m.connectionID);
      var db3 := ExpireSet(db2, m.userID, conf.ttl * 2);
      assert HasSet(db2, m.userID);
      assert db3.index == Registered(conf, db, meta).index;
    }
  }

  lemma RegisteredKeeps(conf: S.StoreConf, db: Db, meta: ConnectionMeta, span: int)
    requires Sound(db, span) && Fits(conf, span) && meta.userID != "" && meta.connectionID != ""
    ensures Sound(Registered(conf, db, meta), span)
  {
    var db' := Registered(conf, db, meta);
    forall id | id in db'.facts && S.Seen(db', id).Some?
      ensures IndexedAt(db', span, id)
    {
      if id != meta.connectionID {
        assert S.Seen(db, id) == S.Seen(db', id);
        assert IndexedAt(db, span, id);
      }
    }
  }

  /** Without failures a refresh re-registers the record it read, or does nothing. */
  lemma RefreshQuiet(conf: S.StoreConf, db: Db, user: string, id: string)
    requires db.script == []
    ensures var got := S.Seen(db, id);
            S.Refresh(conf, db, user, id) ==
            if got.None? then (db, Some(ConnectionMissing))
            else if user != "" && got.value.userID != "" && got.value.userID != user then (db, Some(WrongOwner))
            else S.Register(conf, db, S.Normalize(conf, db.now,
              if user != "" then got.value.(userID := user) else got.value))
  {
  }

  lemma RefreshKeeps(conf: S.StoreConf, db: Db, user: string, id: string, span: int)
    requires Sound(db, span) && Fits(conf, span)
    ensures Sound(S.Refresh(conf, db, user, id).0, span)
  {
    RefreshQuiet(conf, db, user, id);
    if S.Seen(db, id).Some? {
      var meta := S.Seen(db, id).value;
      var m := S.Normalize(conf, db.now, if user != "" then meta.(userID := user) else meta);
      RegisterQuiet(conf, db, m);
      if m.userID != "" && m.connectionID != "" { RegisteredKeeps(conf, db, m, span); }
    }
  }

  lemma ShrunkIndexKeeps(db: Db, db': Db, span: int)
    requires Sound(db, span) && db' == db.(index := db'.index)
    requires forall user, id :: id in Members(db, user) && Owns(db, user, id) ==> id in Members(db', user)
    requires forall user :: user in db'.index ==> user in db.index && db'.index[user].expiry == db.index[user].expiry
    ensures Sound(db', span)
  {
    forall id | id in db'.facts && S.Seen(db', id).Some?
      ensures IndexedAt(db', span, id)
    {
      assert S.Seen(db, id) == S.Seen(db', id);
      assert IndexedAt(db, span, id);
      assert Owns(db, S.Seen(db, id).value.userID, id);
    }
  }

  lemma RepairKeeps(db: Db, user: string, span: int)
    requires Sound(db, span)
    ensures Sound(Repaired(db, user), span) && Sound(Swept(db, user), span)
  {
    ShrunkIndexKeeps(db, Repaired(db, user), span);
    ShrunkIndexKeeps(db, Swept(db, user), span);
  }

  lemma CleanupKeeps(db: Db, user: string, id: string, span: int)
    requires Sound(db, span)
    ensures Sound(S.Cleanup(db, user, id).0, span)
  {
    if id != "" {
      CleanupExact(db, user, id);
      var db' := S.Cleanup(db, user, id).0;
      forall x | x in db'.facts && S.Seen(db', x).Some?
        ensures IndexedAt(db', span, x)
      {
        assert S.Seen(db, x) == S.Seen(db', x);
        assert IndexedAt(db, span, x);
      }
    }
  }

  lemma ExecKeeps(db: Db, op: Op, span: int)
    requires Sound(db, span) && Allowed(db, op)
    requires (op.Register? || op.Refresh?) ==> Fits(op.conf, span)
    ensures Sound(Exec(db, op), span)
  {
    match op
    case Tick(elapsed) => TickKeeps(db, elapsed, span);
    case Register(conf, meta) =>
      RegisterQuiet(conf, db, meta);
      if meta.userID != "" && meta.connectionID != "" { RegisteredKeeps(conf, db, meta, span); }
    case Refresh(conf, user, id) => RefreshKeeps(conf, db, user, id, span);
    case List(user, ids) =>
      if user != "" {
        ListQuiet(db, user, ids);
        RepairKeeps(db, user, span);
      }
    case Cleanup(user, id) => CleanupKeeps(db, user, id, span);
    case Sweep(user, ids) =>
      SweepQuiet(db, user, ids);
      RepairKeeps(db, user, span);
  }

  lemma {:induction false} RunKeeps(db: Db, ops: seq<Op>, confs: set<S.StoreConf>, span: int)
    requires Sound(db, span) && Legal(db, ops)
    requires forall op :: op in ops ==> Uses(op, confs)
    requires forall conf :: conf in confs ==> Fits(conf, span)
    ensures Sound(Run(db, ops), span)
  {
    if ops != [] {
      RunKeeps(db, ops[..|ops| - 1], confs, span);
      assert Uses(ops[|ops| - 1], confs);
      ExecKeeps(Run(db, ops[..|ops| - 1]), ops[|ops| - 1], span);
    }
  }

  // ----- the index answers like a scan -----

  /** `r` is what a scan of all facts would answer about `user`. */
  ghost predicate AnswersExactly(db: Db, user: string, r: Result<seq<ConnectionMeta>>) {
    match r
    case Err(e) => e == NoLiveConnections && OwnedIds(db, user) == {}
    case Ok(metas) =>
      && metas != []
      && DistinctIDs(metas)
      && forall m :: m in metas <==> m.connectionID in OwnedIds(db, user) && S.Seen(db, m.connectionID) == Some(m)
  }

  lemma SoundAnswers(db: Db, user: string, ids: seq<string>, span: int)
    requires Sound(db, span) && Enumerates(ids, Members(db, user))
    ensures AnswersExactly(db, user, S.ListByUser(db, user, ids).1)
  {
    if user == "" {
      forall id | id in db.facts && S.Seen(db, id).Some? ensures S.Seen(db, id).value.userID != "" {
        assert IndexedAt(db, span, id);
      }
    } else {
      ListQuiet(db, user, ids);
      LiveMetasExact(db, user, ids);
      var metas := LiveMetas(db, user, ids);
      forall m: ConnectionMeta | m.connectionID in OwnedIds(db, user) && S.Seen(db, m.connectionID) == Some(m)
        ensures m in metas
      {
        assert IndexedAt(db, span, m.connectionID);
      }
      forall m: ConnectionMeta | m in metas ensures m.connectionID in OwnedIds(db, user) {
        SeenCarriesItsKey(db, m.connectionID);
      }
      forall id | id in OwnedIds(db, user) ensures S.Seen(db, id).value in metas {
        SeenCarriesItsKey(db, id);
      }
    }
  }

  /** The longest TTL of some stores. */
  ghost function MaxTtl(confs: set<S.StoreConf>): (span: int)
    ensures 0 <= span && forall conf :: conf in confs ==> conf.ttl <= span
    ensures confs == {} || exists conf :: conf in confs && conf.ttl == span
  {
    if confs == {} then 0 else
    var conf :| conf in confs;
    var rest := MaxTtl(confs - {conf});
    if conf.ttl < rest then rest else conf.ttl
  }

  /** No store's facts outlive twice any store's TTL. */
  predicate Compatible(confs: set<S.StoreConf>) {
    forall a, b :: a in confs && b in confs ==> a.ttl <= b.ttl * 2
  }

  /** After any run from an empty Redis, ListByUser answers exactly like a scan of
      the unexpired facts, one record per connection, and reports no live
      connections iff there are none. */
  lemma IndexRefinesScan(db: Db, ops: seq<Op>, confs: set<S.StoreConf>, user: string, ids: seq<string>)
    requires Empty(db) && Legal(db, ops) && (forall op :: op in ops ==> Uses(op, confs)) && Compatible(confs)
    requires Enumerates(ids, Members(Run(db, ops), user))
    ensures AnswersExactly(Run(db, ops), user, S.ListByUser(Run(db, ops), user, ids).1)
  {
    var span := MaxTtl(confs);
    RunKeeps(db, ops, confs, span);
    SoundAnswers(Run(db, ops), user, ids, span);
  }

  // ----- the doubled index TTL is exactly enough -----

  /** Every readable fact is listed, in a set that expires no earlier. */
  ghost predicate Covered(db: Db) {
    forall id :: id in db.facts && S.Seen(db, id).Some? ==>
      var user := S.Seen(db, id).value.userID;
      && id in Members(db, user)
      && (db.index[user].expiry.None? || db.facts[id].expiry <= db.index[user].expiry.value)
  }

  ghost predicate AlwaysCovered(db: Db, confs: set<S.StoreConf>) {
    forall ops :: Legal(db, ops) && (forall op :: op in ops ==> Uses(op, confs)) ==> Covered(Run(db, ops))
  }

  function SampleMeta(id: string): ConnectionMeta {
    ConnectionMeta("user", id, "", "gateway", "gateway", "", "", 1, 1)
  }

  /** Two stores whose TTLs differ by more than a factor of two lose a live route:
      the second registration shortens the life of the set below that of the
      first connection's fact. */
  lemma ShortIndexLosesRoute(db: Db, long: S.StoreConf, short: S.StoreConf, confs: set<S.StoreConf>)
    requires Empty(db) && long in confs && short in confs && long.ttl > short.ttl * 2
    ensures !AlwaysCovered(db, confs)
  {
    var ops := [Register(long, SampleMeta("a")), Register(short, SampleMeta("b"))];
    RunOfTwo(db, ops);
    RegisterQuiet(long, db, SampleMeta("a"));
    var db1 := Registered(long, db, SampleMeta("a"));
    RegisterQuiet(short, db1, SampleMeta("b"));
    SecondShortens(db, long, short);
  }

  lemma RunOfTwo(db: Db, ops: seq<Op>)
    requires |ops| == 2 && ops[0].Register? && ops[1].Register?
    ensures Run(db, ops) == Exec(Exec(db, ops[0]), ops[1]) && Legal(db, ops)
  {
    assert ops[..1] == [ops[0]] && [ops[0]][..0] == [];
    assert Run(db, []) == db && Legal(db, []);
    assert Run(db, [ops[0]]) == Exec(db, ops[0]) && Legal(db, [ops[0]]);
  }

  lemma SecondShortens(db: Db, long: S.StoreConf, short: S.StoreConf)
    requires Empty(db) && long.ttl > short.ttl * 2
    ensures !Covered(Registered(short, Registered(long, db, SampleMeta("a")), SampleMeta("b")))
  {
    var db2 := Registered(short, Registered(long, db, SampleMeta("a")), SampleMeta("b"));
    assert S.Seen(db2, "a").Some?;
    assert db2.index["user"].expiry == Some(db.now + short.ttl * 2);
  }

  /** The index never expires before a fact it must list, in every run of every
      group of stores, iff no store's TTL exceeds twice another's. */
  lemma IndexOutlivesFactsIff(db: Db, confs: set<S.StoreConf>)
    requires Empty(db)
    ensures AlwaysCovered(db, confs) <==> Compatible(confs)
  {
    if Compatible(confs) {
      forall ops | Legal(db, ops) && (forall op :: op in ops ==> Uses(op, confs))
        ensures Covered(Run(db, ops))
      {
        var span := MaxTtl(confs);
        RunKeeps(db, ops, confs, span);
        var db' := Run(db, ops);
        forall id | id in db'.facts && S.Seen(db', id).Some? ensures IndexedAt(db', span, id) {}
      }
    } else {
      var a, b :| a in confs && b in confs && a.ttl > b.ttl * 2;
      ShortIndexLosesRoute(db, a, b, confs);
    }
  }
}
