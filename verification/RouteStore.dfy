/** The store object (src/route/redis_store.go): its methods issue the Redis
    commands one by one and are proved to do what RouteSpec says. */
module RouteStore {
  import opened RouteModel
  import opened Redis
  import opened RouteSpec

  class RedisStore {
    const conf: StoreConf
    const redis: Cache

    constructor (redis: Cache, gatewayAddr: string, ttl: int)
      ensures this.redis == redis && conf == NewConf(gatewayAddr, ttl)
    {
      this.redis := redis;
      this.conf := NewConf(gatewayAddr, ttl);
    }

    method Get(id: string) returns (r: Result<ConnectionMeta>)
      modifies redis
      ensures (redis.db, r) == GetMeta(old(redis.db), id)
    {
      if id == "" { return Err(ConnectionMissing); }
      var reply := redis.Get(id);
      match reply {
        case Failed => r := Err(RedisFailure);
        case Missing => r := Err(ConnectionMissing);
        case Found(meta) =>
          if meta.gatewayAddr == "" { return Err(ConnectionMissing); }
          r := Ok(meta.(connectionID := DefaultString(meta.connectionID, id)));
      }
    }

    method Register(meta: ConnectionMeta) returns (err: Option<Error>)
      modifies redis
      ensures (redis.db, err) == RouteSpec.Register(conf, old(redis.db), meta)
    {
      if meta.userID == "" || meta.connectionID == "" { return Some(InvalidArgument); }
      var m := Normalize(conf, redis.db.now, meta);
      var stored := redis.Set(m.connectionID, m, conf.ttl);
      if !stored { return Some(RedisFailure); }
      var indexed := IndexConnection(m);
      if !indexed {
        var _ := redis.Delete(m.connectionID);
        return Some(RedisFailure);
      }
      return None;
    }

    /** Adds the connection to its user's set; a failing expiry is only logged. */
    method IndexConnection(meta: ConnectionMeta) returns (ok: bool)
      modifies redis
      ensures var (db1, indexed) := Write(old(redis.db), AddMember(old(redis.db), meta.userID, meta.connectionID));
              ok == indexed &&
              redis.db == if indexed then Write(db1, ExpireSet(db1, meta.userID, conf.ttl * 2)).0 else db1
    {
      ok := redis.SAdd(meta.userID, meta.connectionID);
      if !ok { return; }
      var _ := redis.Expire(meta.userID, conf.ttl * 2);
    }

    method Refresh(user: string, id: string) returns (err: Option<Error>)
      modifies redis
      ensures (redis.db, err) == RouteSpec.Refresh(conf, old(redis.db), user, id)
    {
      var got := Get(id);
      if got.Err? { return Some(got.error); }
      var meta := got.value;
      if user != "" && meta.userID != "" && meta.userID != user { return Some(WrongOwner); }
      if user != "" { meta := meta.(userID := user); }
      err := Register(Normalize(conf, redis.db.now, meta));
    }

    method Unregister(user: string, id: string) returns (err: Option<Error>)
      modifies redis
      ensures (redis.db, err) == RouteSpec.Cleanup(old(redis.db), user, id)
    {
      err := Cleanup(user, id);
    }

    method ListByUser(user: string) returns (r: Result<seq<ConnectionMeta>>, ghost ids: seq<string>)
      modifies redis
      ensures Enumerates(ids, Members(old(redis.db), user))
      ensures (redis.db, r) == RouteSpec.ListByUser(old(redis.db), user, ids)
    {
      if user == "" {
        ids := EnumerateSet(Members(redis.db, user));
        return Err(NoLiveConnections), ids;
      }
      var connectionIDs, ok := redis.SMembers(user);
      ids := connectionIDs;
      if !ok { return Err(RedisFailure), ids; }
      if connectionIDs == [] { return Err(NoLiveConnections), ids; }

      ghost var db1 := redis.db;
      var metas: seq<ConnectionMeta>, stale: seq<string> := [], [];
      for i := 0 to |connectionIDs|
        invariant Scan(db1, user, connectionIDs[..i]) == (redis.db, Ok(Scanned(metas, stale)))
      {
        var id := connectionIDs[i];
        ghost var upTo := connectionIDs[..i + 1];
        assert upTo[..i] == connectionIDs[..i];
        if Blank(id) { continue; }
        var got := Get(id);
        if got.Err? {
          if !got.error.ConnectionMissing? {
            ScanAborts(db1, user, connectionIDs, i + 1);
            return Err(got.error), ids;
          }
          stale := stale + [id];
        } else if got.value.userID != user {
          stale := stale + [id];
        } else {
          metas := metas + [got.value];
        }
      }
      assert connectionIDs[..|connectionIDs|] == connectionIDs;
      if stale != [] {
        var _ := redis.SRem(user, stale);
      }
      if metas == [] { return Err(NoLiveConnections), ids; }
      return Ok(metas), ids;
    }

    method Cleanup(user: string, id: string) returns (err: Option<Error>)
      modifies redis
      ensures (redis.db, err) == RouteSpec.Cleanup(old(redis.db), user, id)
    {
      if id == "" { return None; }
      if user != "" {
        var only := [id];
        assert (set x | x in only) == {id};
        var unindexed := redis.SRem(user, only);
        if !unindexed { return Some(RedisFailure); }
      }
      var deleted := redis.Delete(id);
      if !deleted { return Some(RedisFailure); }
      return None;
    }

    method CleanupStale(user: string) returns (removed: nat, err: Option<Error>, ghost ids: seq<string>)
      modifies redis
      ensures Enumerates(ids, Members(old(redis.db), user))
      ensures (redis.db, removed, err) == RouteSpec.CleanupStale(old(redis.db), user, ids)
    {
      var connectionIDs, ok := redis.SMembers(user);
      ids := connectionIDs;
      if !ok { return 0, Some(RedisFailure), ids; }
      ghost var db1 := redis.db;
      var stale: seq<string> := [];
      for i := 0 to |connectionIDs|
        invariant SweepScan(db1, user, connectionIDs[..i]) == (redis.db, stale)
      {
        ghost var upTo := connectionIDs[..i + 1];
        assert upTo[..i] == connectionIDs[..i];
        var got := Get(connectionIDs[i]);
        if got.Err? || got.value.userID != user {
          stale := stale + [connectionIDs[i]];
        }
      }
      assert connectionIDs[..|connectionIDs|] == connectionIDs;
      if stale == [] { return 0, None, ids; }
      var done := redis.SRem(user, stale);
      return |stale|, if done then None else Some(RedisFailure), ids;
    }
  }
}
