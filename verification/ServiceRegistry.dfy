/** The registry of backend services and their methods
    (src/backbon/storage/service_registry.go, src/backbon/service/service_registry.go)
    and the second implementation of its lookup in the WebSocket handler
    (src/frontier/handler_ws.go). A service's methods are a Redis set under the
    service's key; the set keys of this module are service names. */
module ServiceRegistry {
  import opened RouteModel
  import opened Redis

  const SERVICE_TTL: Duration := 7 * 24 * 3600 * NANOS_PER_SECOND

  const ANY_METHOD := "*"

  datatype RegistryError = EmptyService | NoValidMethods | NotRegistered | MethodRequired | Unavailable

  datatype Answer = Registered(yes: bool) | Fails(error: RegistryError)

  /** Keeps the non-empty names, in order. */
  function FilterEmpty(methods: seq<string>): (valid: seq<string>)
    ensures forall m :: m in valid <==> m in methods && m != ""
  {
    if methods == [] then [] else
    var rest := FilterEmpty(methods[..|methods| - 1]);
    var last := methods[|methods| - 1];
    assert methods == methods[..|methods| - 1] + [last];
    if last == "" then rest else rest + [last]
  }

  function Names(methods: seq<string>): set<string> { set m | m in methods && m != "" }

  // ----- what the calls do -----

  // storage/service_registry.go

  function StoreMethods(db: Db, service: string, methods: seq<string>): (Db, Option<RegistryError>) {
    var names := Names(methods);
    if names == {} then (db, Some(NoValidMethods)) else
    var (db1, added) := Write(db, AddMembers(db, service, names));
    if !added then (db1, Some(Unavailable))
    else (Write(db1, ExpireSet(db1, service, SERVICE_TTL)).0, None)
  }

  function DropMethods(db: Db, service: string, methods: seq<string>): (Db, Option<RegistryError>) {
    if methods != [] && Names(methods) == {} then (db, Some(NoValidMethods)) else
    var (db1, done) := if methods == [] then Write(db, DropSet(db, service))
                       else Write(db, RemoveMembers(db, service, Names(methods)));
    (db1, if done then None else Some(Unavailable))
  }

  // service/service_registry.go

  /** No methods at all means every method. */
  function Effective(methods: seq<string>): seq<string> { if methods == [] then [ANY_METHOD] else methods }

  function Register(db: Db, service: string, methods: seq<string>): (Db, Option<RegistryError>) {
    if service == "" then (db, Some(EmptyService)) else StoreMethods(db, service, Effective(methods))
  }

  function Unregister(db: Db, service: string, methods: seq<string>): (Db, Option<RegistryError>) {
    if service == "" then (db, Some(EmptyService)) else DropMethods(db, service, methods)
  }

  /** The backbon lookup: the wildcard is only asked for when the method is missing,
      and without a method any registration will do. */
  function FindService(db: Db, service: string, method_: string): (Db, Answer) {
    var (db1, exists_) := ReadExists(db, service);
    if exists_.None? then (db1, Fails(Unavailable)) else
    if !exists_.value then (db1, Registered(false)) else
    if method_ == "" then (db1, Registered(true)) else
    var (db2, member) := ReadIsMember(db1, service, method_);
    if member.None? then (db2, Fails(Unavailable)) else
    if member.value then (db2, Registered(true)) else
    var (db3, all) := ReadIsMember(db2, service, ANY_METHOD);
    (db3, if all.None? then Fails(Unavailable) else Registered(all.value))
  }

  /** The handler's check of a request: both memberships are always asked for. */
  function CheckRequest(db: Db, service: string, method_: string): (Db, Answer) {
    if service == "" then (db, Fails(EmptyService)) else
    if method_ == "" then (db, Fails(MethodRequired)) else
    var (db1, exists_) := ReadExists(db, service);
    if exists_.None? then (db1, Fails(Unavailable)) else
    if !exists_.value then (db1, Fails(NotRegistered)) else
    var (db2, member) := ReadIsMember(db1, service, method_);
    if member.None? then (db2, Fails(Unavailable)) else
    var (db3, all) := ReadIsMember(db2, service, ANY_METHOD);
    if all.None? then (db3, Fails(Unavailable)) else
    (db3, if all.value || member.value then Registered(true) else Fails(NotRegistered))
  }

  // ----- the objects -----

  class Storage {
    const redis: Cache

    constructor (redis: Cache)
      ensures this.redis == redis
    {
      this.redis := redis;
    }

    method RegisterService(service: string, methods: seq<string>) returns (err: Option<RegistryError>)
      modifies redis
      ensures (redis.db, err) == StoreMethods(old(redis.db), service, methods)
    {
      var valid := FilterEmpty(methods);
      assert (set m | m in valid) == Names(methods);
      if |valid| == 0 { return Some(NoValidMethods); }
      assert valid[0] in Names(methods);
      var added := redis.SAddAll(service, valid);
      if !added { return Some(Unavailable); }
      var _ := redis.Expire(service, SERVICE_TTL);
      return None;
    }

    method UnregisterService(service: string, methods: seq<string>) returns (err: Option<RegistryError>)
      modifies redis
      ensures (redis.db, err) == DropMethods(old(redis.db), service, methods)
    {
      var done: bool;
      if |methods| == 0 {
        done := redis.DeleteSet(service);
      } else {
        var valid := FilterEmpty(methods);
        assert (set m | m in valid) == Names(methods);
        if |valid| == 0 { return Some(NoValidMethods); }
        assert valid[0] in Names(methods);
        done := redis.SRem(service, valid);
      }
      return if done then None else Some(Unavailable);
    }

    method GetService(service: string, method_: string) returns (r: Answer)
      modifies redis
      ensures (redis.db, r) == FindService(old(redis.db), service, method_)
    {
      var found := redis.Exists(service);
      if found.None? { return Fails(Unavailable); }
      if !found.value { return Registered(false); }
      if method_ != "" {
        var member := redis.SIsMember(service, method_);
        if member.None? { return Fails(Unavailable); }
        if !member.value {
          var all := redis.SIsMember(service, ANY_METHOD);
          if all.None? { return Fails(Unavailable); }
          return Registered(all.value);
        }
        return Registered(true);
      }
      return Registered(true);
    }
  }

  /** The backbon service's calls over its storage. */
  class Registry {
    const storage: Storage

    constructor (storage: Storage)
      ensures this.storage == storage
    {
      this.storage := storage;
    }

    method RegisterService(service: string, methods: seq<string>) returns (err: Option<RegistryError>)
      modifies storage.redis
      ensures (storage.redis.db, err) == Register(old(storage.redis.db), service, methods)
    {
      if service == "" { return Some(EmptyService); }
      var effective := methods;
      if |methods| == 0 { effective := [ANY_METHOD]; }
      err := storage.RegisterService(service, effective);
    }

    method UnregisterService(service: string, methods: seq<string>) returns (err: Option<RegistryError>)
      modifies storage.redis
      ensures (storage.redis.db, err) == Unregister(old(storage.redis.db), service, methods)
    {
      if service == "" { return Some(EmptyService); }
      err := storage.UnregisterService(service, methods);
    }
  }

  /** The WebSocket handler's own check of a request. */
  class Handler {
    const redis: Cache

    constructor (redis: Cache)
      ensures this.redis == redis
    {
      this.redis := redis;
    }

    /** The handler's side: validateRequest, then checkServiceRegistered. */
    method CheckServiceRegistered(service: string, method_: string) returns (r: Answer)
      modifies redis
      ensures (redis.db, r) == CheckRequest(old(redis.db), service, method_)
    {
      if service == "" { return Fails(EmptyService); }
      if method_ == "" { return Fails(MethodRequired); }
      var found := redis.Exists(service);
      if found.None? { return Fails(Unavailable); }
      if !found.value { return Fails(NotRegistered); }
      var member := redis.SIsMember(service, method_);
      if member.None? { return Fails(Unavailable); }
      var all := redis.SIsMember(service, ANY_METHOD);
      if all.None? { return Fails(Unavailable); }
      if all.value || member.value { return Registered(true); }
      return Fails(NotRegistered);
    }
  }

  // ----- histories -----

  datatype Call =
    | RegisterCall(service: string, methods: seq<string>)
    | UnregisterCall(service: string, methods: seq<string>)

  function Exec(db: Db, call: Call): Db {
    match call
    case RegisterCall(service, methods) => Register(db, service, methods).0
    case UnregisterCall(service, methods) => Unregister(db, service, methods).0
  }

  function Run(db: Db, calls: seq<Call>): Db {
    if calls == [] then db else Exec(Run(db, calls[..|calls| - 1]), calls[|calls| - 1])
  }

  predicate Adds(call: Call, service: string, m: string) {
    call.RegisterCall? && call.service == service && m in Names(Effective(call.methods))
  }

  predicate Removes(call: Call, service: string, m: string) {
    call.UnregisterCall? && call.service == service && (call.methods == [] || m in Names(call.methods))
  }

  /** The reference: the last call that touches the entry decides. */
  ghost predicate LastCallAdds(calls: seq<Call>, service: string, m: string) {
    exists i :: 0 <= i < |calls| && StaysAdded(calls, service, m, i)
  }

  predicate StaysAdded(calls: seq<Call>, service: string, m: string, i: nat)
    requires i < |calls|
  {
    Adds(calls[i], service, m) && forall j :: i < j < |calls| ==> !Removes(calls[j], service, m)
  }

  lemma ExecMembers(db: Db, call: Call, service: string, m: string)
    requires db.script == [] && service != "" && m != ""
    ensures Exec(db, call).script == [] && Exec(db, call).now == db.now
    ensures m in Members(Exec(db, call), service) <==>
            Adds(call, service, m) || (m in Members(db, service) && !Removes(call, service, m))
  {
    if call.service != "" && call.RegisterCall? {
      var names := Names(Effective(call.methods));
      var db1 := AddMembers(db, call.service, names);
      assert HasSet(db1, call.service);
      assert Members(ExpireSet(db1, call.service, SERVICE_TTL), service) == Members(db1, service);
    }
  }

  lemma {:induction false} RunMembers(db: Db, calls: seq<Call>, service: string, m: string)
    requires db.script == [] && db.index == map[] && service != "" && m != ""
    ensures Run(db, calls).script == [] && Run(db, calls).now == db.now
    ensures m in Members(Run(db, calls), service) <==> LastCallAdds(calls, service, m)
  {
    if calls != [] {
      var n := |calls| - 1;
      RunMembers(db, calls[..n], service, m);
      ExecMembers(Run(db, calls[..n]), calls[n], service, m);
      LastCallSteps(calls, service, m);
    }
  }

  lemma LastCallSteps(calls: seq<Call>, service: string, m: string)
    requires calls != []
    ensures var n := |calls| - 1;
            LastCallAdds(calls, service, m) <==>
            Adds(calls[n], service, m) || (LastCallAdds(calls[..n], service, m) && !Removes(calls[n], service, m))
  {
    var n := |calls| - 1;
    forall i | 0 <= i < n
      ensures StaysAdded(calls, service, m, i) <==>
              StaysAdded(calls[..n], service, m, i) && !Removes(calls[n], service, m)
    {
      StaysAddedSteps(calls, service, m, i);
    }
    assert Adds(calls[n], service, m) <==> StaysAdded(calls, service, m, n);
  }

  lemma StaysAddedSteps(calls: seq<Call>, service: string, m: string, i: nat)
    requires i < |calls| - 1
    ensures var n := |calls| - 1;
            StaysAdded(calls, service, m, i) <==>
              StaysAdded(calls[..n], service, m, i) && !Removes(calls[n], service, m)
  {
    var n := |calls| - 1;
    forall j | 0 <= j < n ensures calls[..n][j] == calls[j] {}
    if StaysAdded(calls[..n], service, m, i) && !Removes(calls[n], service, m) {
      forall j | i < j < |calls| ensures !Removes(calls[j], service, m) {
        assert j < n ==> !Removes(calls[..n][j], service, m);
      }
    }
  }

  /** After any failure-free calls without expiry, both lookups accept a method iff the
      last call touching the method or the wildcard added it. */
  lemma LookupsFollowHistory(db: Db, calls: seq<Call>, service: string, m: string)
    requires db.script == [] && db.index == map[] && service != "" && m != ""
    ensures var db' := Run(db, calls);
            var accepted := LastCallAdds(calls, service, m) || LastCallAdds(calls, service, ANY_METHOD);
            && FindService(db', service, m) == (db', Registered(accepted))
            && CheckRequest(db', service, m) == (db', if accepted then Registered(true) else Fails(NotRegistered))
  {
    RunMembers(db, calls, service, m);
    RunMembers(db, calls, service, ANY_METHOD);
  }

  // ----- what the callers are told, whatever fails -----

  /** Some name of the list is not empty, or the list is, which means every method. */
  predicate NamesSome(methods: seq<string>) { methods == [] || exists m :: m in methods && m != "" }

  lemma NamesSomeIff(methods: seq<string>)
    ensures NamesSome(methods) <==> methods == [] || Names(methods) != {}
    ensures NamesSome(methods) <==> Names(Effective(methods)) != {}
  {
    if methods == [] {
      assert [ANY_METHOD][0] in Names([ANY_METHOD]);
    } else if NamesSome(methods) {
      var m :| m in methods && m != "";
      assert m in Names(methods);
    }
  }

  /** A registration succeeds iff it names a service and a method and its first command
      reports no error; whether the expiry could be set does not matter. Then every method
      it names is registered. A refused call says why and changes nothing. */
  lemma RegisterAnswers(db: Db, service: string, methods: seq<string>)
    ensures var (db', err) := Register(db, service, methods);
            && (err == None <==> service != "" && NamesSome(methods) && NextOutcome(db).Done?)
            && (err == Some(EmptyService) <==> service == "")
            && (err == Some(NoValidMethods) <==> service != "" && !NamesSome(methods))
            && (err == Some(Unavailable) <==> service != "" && NamesSome(methods) && !NextOutcome(db).Done?)
            && (err == None ==> forall m :: m in methods && m != "" ==> m in Members(db', service))
            && (err == None && methods == [] ==> "*" in Members(db', service))
            && (service == "" || !NamesSome(methods) ==> db' == db)
  {
    NamesSomeIff(methods);
    if service != "" && NamesSome(methods) {
      var db1 := Write(db, AddMembers(db, service, Names(Effective(methods)))).0;
      assert NextOutcome(db).Done? ==> HasSet(db1, service) && Names(Effective(methods)) <= Members(db1, service);
      ExpiryKeepsMembers(db1, service);
    }
  }

  /** How long the service lives after a registration that succeeds: seven days, unless
      setting the expiry is refused. Then a known service keeps the time it had and a new one
      stays. */
  lemma ServiceLivesOn(db: Db, service: string, methods: seq<string>)
    requires Register(db, service, methods).1 == None
    ensures var db' := Register(db, service, methods).0;
            && service in db'.index
            && db'.index[service].members == Members(db, service) + Names(Effective(methods))
            && db'.index[service].expiry ==
               if !OutcomeAt(db, 1).Refused? then Some(db.now + 604_800_000_000_000)
               else if HasSet(db, service) then db.index[service].expiry
               else None
  {
    var db1 := Write(db, AddMembers(db, service, Names(Effective(methods)))).0;
    RegisterAnswers(db, service, methods);
    assert NextOutcome(db1) == OutcomeAt(db, 1) && HasSet(db1, service);
  }

  lemma ExpiryKeepsMembers(db: Db, service: string)
    ensures Members(Write(db, ExpireSet(db, service, SERVICE_TTL)).0, service) == Members(db, service)
  {
  }

  /** The same for an unregistration: when it succeeds no named method is left, and none at
      all when it names none. */
  lemma UnregisterAnswers(db: Db, service: string, methods: seq<string>)
    ensures var (db', err) := Unregister(db, service, methods);
            && (err == None <==> service != "" && NamesSome(methods) && NextOutcome(db).Done?)
            && (err == Some(EmptyService) <==> service == "")
            && (err == Some(NoValidMethods) <==> service != "" && !NamesSome(methods))
            && (err == Some(Unavailable) <==> service != "" && NamesSome(methods) && !NextOutcome(db).Done?)
            && (err == None ==> forall m :: m in methods && m != "" ==> m !in Members(db', service))
            && (err == None && methods == [] ==> !HasSet(db', service))
            && (service == "" || !NamesSome(methods) ==> db' == db)
  {
    NamesSomeIff(methods);
  }

  /** Storing refuses an empty list, which the service in front of it replaces. */
  lemma StorageRefuses(db: Db, service: string, methods: seq<string>)
    ensures StoreMethods(db, service, methods).1 == Some(NoValidMethods) <==> forall m :: m in methods ==> m == ""
    ensures StoreMethods(db, service, methods).1 == None <==>
            (exists m :: m in methods && m != "") && NextOutcome(db).Done?
  {
    if m :| m in methods && m != "" { assert m in Names(methods); }
  }

  /** The lookup accepts a method iff the service is there with the method or the wildcard,
      and any registration when no method is asked for; it asks for no more than it needs,
      and fails iff one of those questions does. */
  lemma FindServiceAnswers(db: Db, service: string, m: string)
    ensures var answer := FindService(db, service, m).1;
            var found, named := HasSet(db, service), m in Members(db, service);
            && (answer == Fails(Unavailable) <==>
                || !OutcomeAt(db, 0).Done?
                || (found && m != "" && !OutcomeAt(db, 1).Done?)
                || (found && m != "" && !named && !OutcomeAt(db, 2).Done?))
            && (answer != Fails(Unavailable) ==>
                answer == Registered(found && (m == "" || named || "*" in Members(db, service))))
  {
  }

  /** The handler's check refuses a request without service or method before it asks, asks
      for the wildcard in any case, and never fails to say why it refuses. */
  lemma CheckRequestAnswers(db: Db, service: string, m: string)
    ensures var (db', answer) := CheckRequest(db, service, m);
            var found := HasSet(db, service);
            && (answer == Fails(EmptyService) <==> service == "")
            && (answer == Fails(MethodRequired) <==> service != "" && m == "")
            && (service == "" || m == "" ==> db' == db)
            && (answer == Fails(Unavailable) <==>
                && service != "" && m != ""
                && (|| !OutcomeAt(db, 0).Done?
                    || (found && (!OutcomeAt(db, 1).Done? || !OutcomeAt(db, 2).Done?))))
            && (answer == Registered(true) ==>
                found && (m in Members(db, service) || "*" in Members(db, service)))
            && (answer == Fails(NotRegistered) ==>
                !found || (m !in Members(db, service) && "*" !in Members(db, service)))
            && answer != Registered(false) && answer != Fails(NoValidMethods)
  {
  }

  /** What the handler lets through the lookup accepts, with the same failures to come. */
  lemma HandlerIsStricter(db: Db, service: string, m: string)
    requires CheckRequest(db, service, m).1 == Registered(true)
    ensures FindService(db, service, m).1 == Registered(true)
  {
    FindServiceAnswers(db, service, m);
    CheckRequestAnswers(db, service, m);
  }

  /** No set is stored empty. */
  predicate NoEmptySet(db: Db) { forall service :: service in db.index ==> db.index[service].members != {} }

  lemma ExecKeepsNoEmptySet(db: Db, call: Call)
    requires NoEmptySet(db)
    ensures NoEmptySet(Exec(db, call))
  {
    AddingNamesKeepsNoEmptySet(db, call.service, Names(Effective(call.methods)));
    RemovingNamesKeepsNoEmptySet(db, call.service, Names(call.methods));
  }

  lemma AddingNamesKeepsNoEmptySet(db: Db, service: string, names: set<string>)
    requires NoEmptySet(db)
    ensures names != {} ==> NoEmptySet(AddMembers(db, service, names))
  {
    if m :| m in names { assert m in AddMembers(db, service, names).index[service].members; }
  }

  lemma RemovingNamesKeepsNoEmptySet(db: Db, service: string, names: set<string>)
    requires NoEmptySet(db)
    ensures NoEmptySet(RemoveMembers(db, service, names))
  {
    if HasSet(db, service) && !(db.index[service].members <= names) {
      var m :| m in db.index[service].members && m !in names;
      assert m in RemoveMembers(db, service, names).index[service].members;
    }
  }

  lemma {:induction false} RunKeepsNoEmptySet(db: Db, calls: seq<Call>)
    requires NoEmptySet(db)
    ensures NoEmptySet(Run(db, calls))
  {
    if calls != [] {
      RunKeepsNoEmptySet(db, calls[..|calls| - 1]);
      ExecKeepsNoEmptySet(Run(db, calls[..|calls| - 1]), calls[|calls| - 1]);
    }
  }

  lemma {:induction false} RunAddsNoEmptyName(db: Db, calls: seq<Call>, service: string)
    requires db.script == [] && db.index == map[] && service != ""
    ensures Run(db, calls).script == [] && "" !in Members(Run(db, calls), service)
  {
    if calls != [] {
      var n := |calls| - 1;
      RunAddsNoEmptyName(db, calls[..n], service);
      ExecAddsNoEmptyName(Run(db, calls[..n]), calls[n], service);
    }
  }

  lemma ExecAddsNoEmptyName(db: Db, call: Call, service: string)
    requires db.script == [] && "" !in Members(db, service)
    ensures Exec(db, call).script == [] && "" !in Members(Exec(db, call), service)
  {
  }

  /** After any failure-free calls without expiry, a lookup without method finds the service
      iff for some method the last call touching it added it. */
  lemma ServiceFollowsHistory(db: Db, calls: seq<Call>, service: string)
    requires db.script == [] && db.index == map[] && service != ""
    ensures var db' := Run(db, calls);
            FindService(db', service, "") ==
            (db', Registered(exists m :: m != "" && LastCallAdds(calls, service, m)))
  {
    var db' := Run(db, calls);
    RunKeepsNoEmptySet(db, calls);
    RunAddsNoEmptyName(db, calls, service);
    if HasSet(db', service) {
      var m :| m in Members(db', service);
      RunMembers(db, calls, service, m);
    }
    if m :| m != "" && LastCallAdds(calls, service, m) { RunMembers(db, calls, service, m); }
  }

  /** A registration lasts for seven days: until then both lookups accept what it named,
      after that nothing of the service is left. */
  lemma RegistrationLastsAWeek(db: Db, service: string, methods: seq<string>, m: string, elapsed: nat)
    requires db.script == [] && service != "" && m in methods && m != ""
    ensures var db' := Tick(Register(db, service, methods).0, elapsed);
            var accepted := elapsed < 604_800_000_000_000;
            && FindService(db', service, m).1 == Registered(accepted)
            && FindService(db', service, "").1 == Registered(accepted)
            && CheckRequest(db', service, m).1 == if accepted then Registered(true) else Fails(NotRegistered)
  {
    var db1 := AddMembers(db, service, Names(methods));
    assert m in Names(methods) && HasSet(db1, service);
    assert Register(db, service, methods).0 == ExpireSet(db1, service, SERVICE_TTL);
  }
}
