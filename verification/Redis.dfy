/** The part of Redis the gateways share: string keys holding connection facts,
    set keys holding a user's connection IDs, key expiry and failing commands.

    A command either takes effect and says so, is refused without effect, or
    takes effect while its reply is lost. The next outcomes are read off `script`;
    once the script is exhausted every command succeeds, so `script == []` is a
    Redis that does not fail. */
module Redis {
  import opened RouteModel

  datatype Outcome = Done | Refused | Lost

  datatype Fact = Fact(meta: ConnectionMeta, expiry: int)

  datatype Index = Index(members: set<string>, expiry: Option<int>)

  datatype Db = Db(now: int, facts: map<string, Fact>, index: map<string, Index>, script: seq<Outcome>)

  datatype Reply = Failed | Missing | Found(meta: ConnectionMeta)

  // ----- what a reader can see -----

  predicate Unexpired(now: int, expiry: Option<int>) { expiry.None? || now < expiry.value }

  function Lookup(db: Db, id: string): Option<ConnectionMeta> {
    if id in db.facts && db.now < db.facts[id].expiry then Some(db.facts[id].meta) else None
  }

  predicate HasSet(db: Db, user: string) { user in db.index && Unexpired(db.now, db.index[user].expiry) }

  function Members(db: Db, user: string): set<string> {
    if HasSet(db, user) then db.index[user].members else {}
  }

  // ----- effects of the write commands -----

  function SetFact(db: Db, id: string, meta: ConnectionMeta, ttl: Duration): Db {
    db.(facts := db.facts[id := Fact(meta, db.now + ttl)])
  }

  function DropFact(db: Db, id: string): Db { db.(facts := db.facts - {id}) }

  /** SADD keeps the key's expiry; a new key has none. */
  function AddMember(db: Db, user: string, id: string): Db {
    db.(index := db.index[user := Index(Members(db, user) + {id},
                                        if HasSet(db, user) then db.index[user].expiry else None)])
  }

  /** SADD of several members at once. */
  function AddMembers(db: Db, user: string, ids: set<string>): Db {
    db.(index := db.index[user := Index(Members(db, user) + ids,
                                        if HasSet(db, user) then db.index[user].expiry else None)])
  }

  function DropSet(db: Db, user: string): Db { db.(index := db.index - {user}) }

  /** SREM deletes a key whose set becomes empty. */
  function RemoveMembers(db: Db, user: string, ids: set<string>): Db {
    if !HasSet(db, user) then db
    else if db.index[user].members <= ids then db.(index := db.index - {user})
    else db.(index := db.index[user := db.index[user].(members := db.index[user].members - ids)])
  }

  function ExpireSet(db: Db, user: string, ttl: Duration): Db {
    if !HasSet(db, user) then db
    else db.(index := db.index[user := db.index[user].(expiry := Some(db.now + ttl))])
  }

  // ----- commands -----

  function NextOutcome(db: Db): Outcome { if db.script == [] then Done else db.script[0] }

  function OutcomeAt(db: Db, k: nat): Outcome { if k < |db.script| then db.script[k] else Done }

  function Consume(db: Db): Db { if db.script == [] then db else db.(script := db.script[1..]) }

  /** Runs a write whose effect would lead from `db` to `after`; true means no error. */
  function Write(db: Db, after: Db): (Db, bool) {
    match NextOutcome(db)
    case Done => (Consume(after), true)
    case Refused => (Consume(db), false)
    case Lost => (Consume(after), false)
  }

  function Read(db: Db): (Db, bool) { (Consume(db), NextOutcome(db).Done?) }

  function ReadFact(db: Db, id: string): (Db, Reply) {
    var (db', ok) := Read(db);
    if !ok then (db', Failed)
    else match Lookup(db, id)
      case None => (db', Missing)
      case Some(meta) => (db', Found(meta))
  }

  function ReadExists(db: Db, user: string): (Db, Option<bool>) {
    var (db', ok) := Read(db);
    (db', if ok then Some(HasSet(db, user)) else None)
  }

  function ReadIsMember(db: Db, user: string, id: string): (Db, Option<bool>) {
    var (db', ok) := Read(db);
    (db', if ok then Some(id in Members(db, user)) else None)
  }

  /** Time passes between commands. */
  function Tick(db: Db, elapsed: nat): Db { db.(now := db.now + elapsed) }

  /** The client handle the stores share. */
  class Cache {
    var db: Db

    constructor (db: Db)
      ensures this.db == db
    {
      this.db := db;
    }

    method Set(id: string, meta: ConnectionMeta, ttl: Duration) returns (ok: bool)
      modifies this
      ensures (db, ok) == Write(old(db), SetFact(old(db), id, meta, ttl))
    {
      var r := Write(db, SetFact(db, id, meta, ttl));
      db, ok := r.0, r.1;
    }

    method Delete(id: string) returns (ok: bool)
      modifies this
      ensures (db, ok) == Write(old(db), DropFact(old(db), id))
    {
      var r := Write(db, DropFact(db, id));
      db, ok := r.0, r.1;
    }

    method Get(id: string) returns (reply: Reply)
      modifies this
      ensures (db, reply) == ReadFact(old(db), id)
    {
      var r := ReadFact(db, id);
      db, reply := r.0, r.1;
    }

    method SAdd(user: string, id: string) returns (ok: bool)
      modifies this
      ensures (db, ok) == Write(old(db), AddMember(old(db), user, id))
    {
      var r := Write(db, AddMember(db, user, id));
      db, ok := r.0, r.1;
    }

    method SAddAll(user: string, ids: seq<string>) returns (ok: bool)
      modifies this
      ensures (db, ok) == Write(old(db), AddMembers(old(db), user, set id | id in ids))
    {
      var r := Write(db, AddMembers(db, user, set id | id in ids));
      db, ok := r.0, r.1;
    }

    method DeleteSet(user: string) returns (ok: bool)
      modifies this
      ensures (db, ok) == Write(old(db), DropSet(old(db), user))
    {
      var r := Write(db, DropSet(db, user));
      db, ok := r.0, r.1;
    }

    method Exists(user: string) returns (found: Option<bool>)
      modifies this
      ensures (db, found) == ReadExists(old(db), user)
    {
      var r := ReadExists(db, user);
      db, found := r.0, r.1;
    }

    method SIsMember(user: string, id: string) returns (found: Option<bool>)
      modifies this
      ensures (db, found) == ReadIsMember(old(db), user, id)
    {
      var r := ReadIsMember(db, user, id);
      db, found := r.0, r.1;
    }

    method SRem(user: string, ids: seq<string>) returns (ok: bool)
      modifies this
      ensures (db, ok) == Write(old(db), RemoveMembers(old(db), user, set id | id in ids))
    {
      var r := Write(db, RemoveMembers(db, user, set id | id in ids));
      db, ok := r.0, r.1;
    }

    method Expire(user: string, ttl: Duration) returns (ok: bool)
      modifies this
      ensures (db, ok) == Write(old(db), ExpireSet(old(db), user, ttl))
    {
      var r := Write(db, ExpireSet(db, user, ttl));
      db, ok := r.0, r.1;
    }

    /** SMEMBERS answers in an order of its own choosing. */
    method SMembers(user: string) returns (ids: seq<string>, ok: bool)
      modifies this
      ensures (db, ok) == Read(old(db))
      ensures Enumerates(ids, Members(old(db), user))
    {
      var todo := Members(db, user);
      ids := [];
      while todo != {}
        invariant NoDuplicates(ids)
        invariant forall id :: id in ids ==> id !in todo
        invariant forall id :: id in Members(db, user) <==> id in ids || id in todo
        decreases todo
      {
        var id :| id in todo;
        ids, todo := ids + [id], todo - {id};
      }
      var r := Read(db);
      db, ok := r.0, r.1;
    }
  }
}
