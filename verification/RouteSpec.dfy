/** What each operation of the route store does to the database
    (src/route/redis_store.go), as functions of the state before it. */
module RouteSpec {
  import opened RouteModel
  import opened Redis

  const DEFAULT_TTL: Duration := 120 * NANOS_PER_SECOND

  datatype StoreConf = StoreConf(ttl: Duration, gatewayAddr: string, gatewayID: string)

  /** A non-positive TTL falls back to two minutes; the address doubles as gateway ID. */
  function NewConf(gatewayAddr: string, ttl: int): (conf: StoreConf)
    ensures conf.gatewayAddr == conf.gatewayID == gatewayAddr
    ensures conf.ttl == if ttl > 0 then ttl else 120_000_000_000
  {
    StoreConf(if ttl <= 0 then DEFAULT_TTL else ttl, gatewayAddr, gatewayAddr)
  }

  function Normalize(conf: StoreConf, now: int, meta: ConnectionMeta): ConnectionMeta {
    meta.(gatewayAddr := DefaultString(meta.gatewayAddr, conf.gatewayAddr),
          gatewayID := DefaultString(meta.gatewayID, conf.gatewayID)).Touch(now)
  }

  // ----- reading -----

  /** A stored record without gateway address counts as missing. */
  function Parse(meta: ConnectionMeta, id: string): Option<ConnectionMeta> {
    if meta.gatewayAddr == "" then None
    else Some(meta.(connectionID := DefaultString(meta.connectionID, id)))
  }

  /** The record a reader gets for `id` when Redis does not fail. */
  function Seen(db: Db, id: string): Option<ConnectionMeta> {
    if id == "" then None
    else match Lookup(db, id)
      case None => None
      case Some(meta) => Parse(meta, id)
  }

  function GetMeta(db: Db, id: string): (Db, Result<ConnectionMeta>) {
    if id == "" then (db, Err(ConnectionMissing)) else
    var (db', reply) := ReadFact(db, id);
    match reply
    case Failed => (db', Err(RedisFailure))
    case Missing => (db', Err(ConnectionMissing))
    case Found(meta) => (match Parse(meta, id)
      case None => (db', Err(ConnectionMissing))
      case Some(m) => (db', Ok(m)))
  }

  lemma GetOnlyReads(db: Db, id: string)
    ensures GetMeta(db, id).0 == if id == "" then db else Consume(db)
    ensures GetMeta(db, id).1 ==
            if id != "" && !NextOutcome(db).Done? then Err(RedisFailure)
            else match Seen(db, id) case None => Err(ConnectionMissing) case Some(meta) => Ok(meta)
  {
  }

  datatype Scanned = Scanned(metas: seq<ConnectionMeta>, stale: seq<string>)

  /** Looks every ID of a user's index up; a failing read aborts the scan. */
  function Scan(db: Db, user: string, ids: seq<string>): (Db, Result<Scanned>) {
    if ids == [] then (db, Ok(Scanned([], []))) else
    var (db1, r) := Scan(db, user, ids[..|ids| - 1]);
    var id := ids[|ids| - 1];
    if r.Err? || Blank(id) then (db1, r) else
    var (db2, got) := GetMeta(db1, id);
    match got
    case Err(e) =>
      if e.ConnectionMissing? then (db2, Ok(r.value.(stale := r.value.stale + [id]))) else (db2, Err(e))
    case Ok(meta) =>
      if meta.userID != user then (db2, Ok(r.value.(stale := r.value.stale + [id])))
      else (db2, Ok(r.value.(metas := r.value.metas + [meta])))
  }

  /** `ids` is the answer SMEMBERS gives. */
  function ListByUser(db: Db, user: string, ids: seq<string>): (Db, Result<seq<ConnectionMeta>>) {
    if user == "" then (db, Err(NoLiveConnections)) else
    var (db1, ok) := Read(db);
    if !ok then (db1, Err(RedisFailure)) else
    if ids == [] then (db1, Err(NoLiveConnections)) else
    var (db2, r) := Scan(db1, user, ids);
    match r
    case Err(e) => (db2, Err(e))
    case Ok(s) =>
      var db3 := if s.stale == [] then db2
                 else Write(db2, RemoveMembers(db2, user, set id | id in s.stale)).0;
      if s.metas == [] then (db3, Err(NoLiveConnections)) else (db3, Ok(s.metas))
  }

  // ----- writing -----

  function Register(conf: StoreConf, db: Db, meta: ConnectionMeta): (Db, Option<Error>) {
    if meta.userID == "" || meta.connectionID == "" then (db, Some(InvalidArgument)) else
    var m := Normalize(conf, db.now, meta);
    var (db1, stored) := Write(db, SetFact(db, m.connectionID, m, conf.ttl));
    if !stored then (db1, Some(RedisFailure)) else
    var (db2, indexed) := Write(db1, AddMember(db1, m.userID, m.connectionID));
    if !indexed then (Write(db2, DropFact(db2, m.connectionID)).0, Some(RedisFailure)) else
    (Write(db2, ExpireSet(db2, m.userID, conf.ttl * 2)).0, None)
  }

  function Refresh(conf: StoreConf, db: Db, user: string, id: string): (Db, Option<Error>) {
    var (db1, got) := GetMeta(db, id);
    match got
    case Err(e) => (db1, Some(e))
    case Ok(meta) =>
      if user != "" && meta.userID != "" && meta.userID != user then (db1, Some(WrongOwner)) else
      var m := if user != "" then meta.(userID := user) else meta;
      Register(conf, db1, Normalize(conf, db1.now, m))
  }

  function Cleanup(db: Db, user: string, id: string): (Db, Option<Error>) {
    if id == "" then (db, None) else
    var (db1, unindexed) := if user == "" then (db, true) else Write(db, RemoveMembers(db, user, {id}));
    if !unindexed then (db1, Some(RedisFailure)) else
    var (db2, deleted) := Write(db1, DropFact(db1, id));
    (db2, if deleted then None else Some(RedisFailure))
  }

  /** The sweeper treats every read error as stale. */
  function SweepScan(db: Db, user: string, ids: seq<string>): (Db, seq<string>) {
    if ids == [] then (db, []) else
    var (db1, stale) := SweepScan(db, user, ids[..|ids| - 1]);
    var id := ids[|ids| - 1];
    var (db2, got) := GetMeta(db1, id);
    (db2, if got.Err? || got.value.userID != user then stale + [id] else stale)
  }

  function CleanupStale(db: Db, user: string, ids: seq<string>): (Db, nat, Option<Error>) {
    var (db1, ok) := Read(db);
    if !ok then (db1, 0, Some(RedisFailure)) else
    var (db2, stale) := SweepScan(db1, user, ids);
    if stale == [] then (db2, 0, None) else
    var (db3, removed) := Write(db2, RemoveMembers(db2, user, set id | id in stale));
    (db3, |stale|, if removed then None else Some(RedisFailure))
  }

  /** An aborted scan has the same outcome as the scan of its prefix. */
  lemma {:induction false} ScanAborts(db: Db, user: string, ids: seq<string>, k: nat)
    requires k <= |ids| && Scan(db, user, ids[..k]).1.Err?
    ensures Scan(db, user, ids) == Scan(db, user, ids[..k])
    decreases |ids|
  {
    if k == |ids| {
      assert ids[..k] == ids;
    } else {
      assert ids[..|ids| - 1][..k] == ids[..k];
      ScanAborts(db, user, ids[..|ids| - 1], k);
    }
  }

  /** Whatever fails, a cleanup deletes at most the one fact. */
  lemma CleanupFacts(db: Db, user: string, id: string)
    ensures var db' := Cleanup(db, user, id).0;
            db'.now == db.now && (db'.facts == db.facts || (id != "" && db'.facts == db.facts - {id}))
  {
    if id == "" { return; }
    var removed := RemoveMembers(db, user, {id});
    assert removed.facts == db.facts && removed.now == db.now;
    var db1 := if user == "" then db else Write(db, removed).0;
    assert db1.facts == db.facts && db1.now == db.now;
  }

  /** Reading changes nothing but the outcomes still to come. */
  lemma {:induction false} ScanOnlyReads(db: Db, user: string, ids: seq<string>)
    ensures var db' := Scan(db, user, ids).0; db' == db.(script := db'.script)
    ensures var db' := SweepScan(db, user, ids).0; db' == db.(script := db'.script)
  {
    if ids != [] {
      var n := |ids| - 1;
      ScanOnlyReads(db, user, ids[..n]);
      GetOnlyReads(Scan(db, user, ids[..n]).0, ids[n]);
      GetOnlyReads(SweepScan(db, user, ids[..n]).0, ids[n]);
    }
  }

  // ----- reads keep the facts, whatever fails -----

  predicate SameFacts(db: Db, db': Db) { db'.facts == db.facts && db'.now == db.now }

  lemma WritingIndexKeepsFacts(db: Db, after: Db)
    requires SameFacts(db, after)
    ensures SameFacts(db, Write(db, after).0)
  {
  }

  lemma ScanKeepsFacts(db: Db, user: string, ids: seq<string>)
    ensures SameFacts(db, Scan(Read(db).0, user, ids).0) && SameFacts(db, SweepScan(Read(db).0, user, ids).0)
  {
    ScanOnlyReads(Read(db).0, user, ids);
  }

  lemma ListKeepsFacts(db: Db, user: string, ids: seq<string>)
    ensures SameFacts(db, ListByUser(db, user, ids).0)
  {
    ScanKeepsFacts(db, user, ids);
    var (db2, r) := Scan(Read(db).0, user, ids);
    if r.Ok? { WritingIndexKeepsFacts(db2, RemoveMembers(db2, user, set id | id in r.value.stale)); }
  }

  lemma SweepKeepsFacts(db: Db, user: string, ids: seq<string>)
    ensures SameFacts(db, CleanupStale(db, user, ids).0)
  {
    ScanKeepsFacts(db, user, ids);
    var (db2, stale) := SweepScan(Read(db).0, user, ids);
    WritingIndexKeepsFacts(db2, RemoveMembers(db2, user, set id | id in stale));
  }

  /** Every finite set can be listed. */
  ghost function EnumerateSet(s: set<string>): (ids: seq<string>)
    ensures Enumerates(ids, s)
  {
    if s == {} then [] else
    var id :| id in s;
    var rest := EnumerateSet(s - {id});
    assert Enumerates([id] + rest, s) by {
      assert forall x :: x in [id] + rest <==> x == id || x in rest;
    }
    [id] + rest
  }
}
