/** Route-store operations interleaved at the level of single Redis commands: any
    number of registrations, refreshes, cleanups, reads and sweeps are in flight,
    and every step runs one command of one of them. Time stands still and Redis
    does not fail, so only the order of the commands matters. */
module RouteProtocol {
  import opened RouteModel
  import opened Redis
  import S = RouteSpec
  import opened RouteReads
  import R = RouteRuns

  /** An operation between two of its commands, named after the next one. */
  datatype Task =
    | RegSet(conf: S.StoreConf, meta: ConnectionMeta)
    | RegAdd(conf: S.StoreConf, meta: ConnectionMeta)
    | RegExpire(conf: S.StoreConf, meta: ConnectionMeta)
    | RefGet(conf: S.StoreConf, user: string, id: string)
    | CleanRem(user: string, id: string)
    | CleanDel(user: string, id: string)
    | ReadMembers(user: string, sweeping: bool)
    | ReadFacts(user: string, sweeping: bool, todo: set<string>, stale: set<string>)

  /** Runs the next command of `task`; readers look at `pick` next. */
  function TaskStep(db: Db, task: Task, pick: string): (Db, Option<Task>) {
    match task
    case RegSet(conf, meta) =>
      var m := S.Normalize(conf, db.now, meta);
      (Write(db, SetFact(db, m.connectionID, m, conf.ttl)).0, Some(RegAdd(conf, m)))
    case RegAdd(conf, meta) =>
      (Write(db, AddMember(db, meta.userID, meta.connectionID)).0, Some(RegExpire(conf, meta)))
    case RegExpire(conf, meta) =>
      (Write(db, ExpireSet(db, meta.userID, conf.ttl * 2)).0, None)
    case RefGet(conf, user, id) =>
      var (db1, got) := S.GetMeta(db, id);
      if got.Err? || (user != "" && got.value.userID != "" && got.value.userID != user) then (db1, None) else
      var m := S.Normalize(conf, db1.now, if user != "" then got.value.(userID := user) else got.value);
      (db1, if m.userID == "" || m.connectionID == "" then None else Some(RegSet(conf, m)))
    case CleanRem(user, id) =>
      (Write(db, RemoveMembers(db, user, {id})).0, Some(CleanDel(user, id)))
    case CleanDel(user, id) =>
      (Write(db, DropFact(db, id)).0, None)
    case ReadMembers(user, sweeping) =>
      (Read(db).0, if Members(db, user) == {} then None else Some(ReadFacts(user, sweeping, Members(db, user), {})))
    case ReadFacts(user, sweeping, todo, stale) =>
      if todo == {} then
        (if stale == {} then db else Write(db, RemoveMembers(db, user, stale)).0, None)
      else if pick !in todo then (db, Some(task))
      else if !sweeping && Blank(pick) then (db, Some(task.(todo := todo - {pick})))
      else
        var (db1, got) := S.GetMeta(db, pick);
        (db1, Some(task.(todo := todo - {pick},
                         stale := if got.Err? || got.value.userID != user then stale + {pick} else stale)))
  }

  // ----- a task that runs alone is the atomic operation -----

  function Rank(task: Task): nat {
    match task
    case RegSet(_, _) => 3
    case RegAdd(_, _) => 2
    case RegExpire(_, _) => 1
    case RefGet(_, _, _) => 4
    case CleanRem(_, _) => 2
    case CleanDel(_, _) => 1
    case ReadMembers(_, _) => 0
    case ReadFacts(_, _, todo, _) => |todo|
  }

  ghost function AnyOf(ids: set<string>): (id: string)
    ensures ids != {} ==> id in ids
  {
    if ids == {} then "" else var id :| id in ids; id
  }

  ghost function Solo(db: Db, task: Task): Db
    decreases task.ReadMembers?, Rank(task)
  {
    var (db', next) := TaskStep(db, task, if task.ReadFacts? then AnyOf(task.todo) else "");
    if next.None? then db' else Solo(db', next.value)
  }

  lemma SoloWrites(db: Db, conf: S.StoreConf, meta: ConnectionMeta, user: string, id: string)
    requires db.script == []
    ensures meta.userID != "" && meta.connectionID != "" ==>
            Solo(db, RegSet(conf, meta)) == S.Register(conf, db, meta).0
    ensures user != "" && id != "" ==> Solo(db, CleanRem(user, id)) == S.Cleanup(db, user, id).0
  {
    var m := S.Normalize(conf, db.now, meta);
    var db1 := TaskStep(db, RegSet(conf, meta), "").0;
    var db2 := TaskStep(db1, RegAdd(conf, m), "").0;
    assert Solo(db2, RegExpire(conf, m)) == TaskStep(db2, RegExpire(conf, m), "").0;
    assert Solo(db1, RegAdd(conf, m)) == Solo(db2, RegExpire(conf, m));
    var db3 := TaskStep(db, CleanRem(user, id), "").0;
    assert Solo(db3, CleanDel(user, id)) == TaskStep(db3, CleanDel(user, id), "").0;
  }

  lemma SoloRefresh(db: Db, conf: S.StoreConf, user: string, id: string)
    requires db.script == []
    ensures Solo(db, RefGet(conf, user, id)) == S.Refresh(conf, db, user, id).0
  {
    R.RefreshQuiet(conf, db, user, id);
    var next := TaskStep(db, RefGet(conf, user, id), "").1;
    if next.Some? { SoloWrites(db, conf, next.value.meta, user, id); }
  }

  /** The IDs a reader finds stale among `todo`. */
  function Strays(db: Db, user: string, sweeping: bool, todo: set<string>): set<string> {
    set id | id in todo && (sweeping || !Blank(id)) && !Owns(db, user, id)
  }

  lemma ReaderStep(db: Db, user: string, sweeping: bool, todo: set<string>, stale: set<string>, pick: string)
    requires db.script == [] && pick in todo
    ensures TaskStep(db, ReadFacts(user, sweeping, todo, stale), pick) ==
            (db, Some(ReadFacts(user, sweeping, todo - {pick}, stale + Strays(db, user, sweeping, {pick}))))
  {
    var strays := Strays(db, user, sweeping, {pick});
    assert strays == if pick in strays then {pick} else {};
    assert stale + strays == if pick in strays then stale + {pick} else stale;
    if sweeping || !Blank(pick) {
      var got := S.GetMeta(db, pick).1;
      assert (got.Err? || got.value.userID != user) <==> pick in strays;
    }
  }

  lemma {:induction false} SoloReads(db: Db, user: string, sweeping: bool, todo: set<string>, stale: set<string>)
    requires db.script == []
    ensures var found := stale + Strays(db, user, sweeping, todo);
            Solo(db, ReadFacts(user, sweeping, todo, stale)) ==
            if found == {} then db else RemoveMembers(db, user, found)
    decreases |todo|
  {
    if todo == {} {
      assert stale + Strays(db, user, sweeping, todo) == stale;
    } else {
      var pick := AnyOf(todo);
      ReaderStep(db, user, sweeping, todo, stale, pick);
      var stale' := stale + Strays(db, user, sweeping, {pick});
      SoloReads(db, user, sweeping, todo - {pick}, stale');
      assert stale + Strays(db, user, sweeping, todo) == stale' + Strays(db, user, sweeping, todo - {pick});
    }
  }

  lemma SoloReader(db: Db, user: string, sweeping: bool)
    requires db.script == []
    ensures var strays := Strays(db, user, sweeping, Members(db, user));
            Solo(db, ReadMembers(user, sweeping)) == if strays == {} then db else RemoveMembers(db, user, strays)
  {
    var strays := Strays(db, user, sweeping, Members(db, user));
    assert {} + strays == strays;
    SoloReads(db, user, sweeping, Members(db, user), {});
  }

  lemma StraysAre(db: Db, user: string)
    ensures Strays(db, user, false, Members(db, user)) == StaleSet(db, user)
    ensures Strays(db, user, true, Members(db, user)) == SweptIds(db, user)
  {
  }

  /** Reads and sweeps that run alone repair the index as the atomic operations do. */
  lemma SoloList(db: Db, user: string, ids: seq<string>)
    requires db.script == [] && user != "" && Enumerates(ids, Members(db, user))
    ensures Solo(db, ReadMembers(user, false)) == S.ListByUser(db, user, ids).0
  {
    ListQuiet(db, user, ids);
    SoloReader(db, user, false);
    StraysAre(db, user);
  }

  lemma SoloSweep(db: Db, user: string, ids: seq<string>)
    requires db.script == [] && Enumerates(ids, Members(db, user))
    ensures Solo(db, ReadMembers(user, true)) == S.CleanupStale(db, user, ids).0
  {
    SweepQuiet(db, user, ids);
    SoloReader(db, user, true);
    StraysAre(db, user);
  }

  // ----- interleavings -----

  /** `owner` records every ID ever registered, `retired` every ID whose cleanup began. */
  datatype State = State(db: Db, tasks: map<nat, Task>, owner: map<string, string>, retired: set<string>)

  datatype Event = Start(tid: nat, task: Task) | Advance(tid: nat, pick: string)

  predicate Writes(task: Task, id: string) {
    || ((task.RegSet? || task.RegAdd? || task.RegExpire?) && task.meta.connectionID == id)
    || (task.RefGet? && task.id == id)
  }

  predicate Cleans(task: Task, id: string) { (task.CleanRem? || task.CleanDel?) && task.id == id }

  /** The discipline callers keep: an ID is registered once; its cleanup names its
      owner, does not overlap a registration or refresh of it, and is not followed
      by one. Reads and sweeps may start at any time. */
  ghost predicate MayStart(s: State, task: Task) {
    match task
    case RegSet(conf, meta) =>
      && meta.userID != "" && meta.connectionID != ""
      && conf.gatewayAddr != ""
      && meta.connectionID !in s.owner && meta.connectionID !in s.retired
    case RefGet(conf, user, id) => conf.gatewayAddr != "" && id !in s.retired
    case CleanRem(user, id) =>
      && user != "" && id != ""
      && (id in s.owner ==> s.owner[id] == user)
      && forall tid :: tid in s.tasks ==> !Writes(s.tasks[tid], id)
    case ReadMembers(_, _) => true
    case _ => false
  }

  ghost predicate Enabled(s: State, e: Event) {
    match e
    case Start(tid, task) => tid !in s.tasks && MayStart(s, task)
    case Advance(tid, _) => tid in s.tasks
  }

  function Step(s: State, e: Event): State {
    match e
    case Start(tid, task) =>
      State(s.db, s.tasks[tid := task],
            if task.RegSet? then s.owner[task.meta.connectionID := task.meta.userID] else s.owner,
            if task.CleanRem? then s.retired + {task.id} else s.retired)
    case Advance(tid, pick) =>
      if tid !in s.tasks then s else
      var (db', next) := TaskStep(s.db, s.tasks[tid], pick);
      s.(db := db', tasks := if next.None? then s.tasks - {tid} else s.tasks[tid := next.value])
  }

  function Execute(s: State, events: seq<Event>): State {
    if events == [] then s else Step(Execute(s, events[..|events| - 1]), events[|events| - 1])
  }

  ghost predicate Behaves(s: State, events: seq<Event>) {
    events == [] ||
    (Behaves(s, events[..|events| - 1]) && Enabled(Execute(s, events[..|events| - 1]), events[|events| - 1]))
  }

  // ----- the invariant -----

  /** Stored facts are readable and belong to the user who registered them. */
  ghost predicate FactsOK(s: State) {
    && s.db.script == []
    && (forall id :: id in s.db.facts ==>
        var f := s.db.facts[id];
        && id != "" && id in s.owner && f.meta.userID == s.owner[id] && f.meta.userID != ""
        && f.meta.connectionID == id && f.meta.gatewayAddr != ""
        && s.db.now < f.expiry)
    && (forall user :: user in s.db.index ==> Unexpired(s.db.now, s.db.index[user].expiry))
  }

  /** Every indexed ID has its fact. */
  ghost predicate IndexOK(s: State) {
    forall user, id :: id in Members(s.db, user) ==> id in s.db.facts && id in s.owner && s.owner[id] == user
  }

  ghost predicate Busy(s: State, id: string) {
    exists tid :: tid in s.tasks && (Writes(s.tasks[tid], id) || Cleans(s.tasks[tid], id))
  }

  /** A fact missing from the index is still being registered or already being deleted. */
  ghost predicate GapsOK(s: State) {
    forall id :: id in s.db.facts && id !in Members(s.db, s.db.facts[id].meta.userID) ==>
      exists tid :: tid in s.tasks && PendingOn(s.tasks[tid], id)
  }

  predicate PendingOn(task: Task, id: string) {
    (task.RegAdd? && task.meta.connectionID == id) || (task.CleanDel? && task.id == id)
  }

  ghost predicate TaskOK(s: State, task: Task) {
    match task
    case RegSet(conf, meta) => RegOK(s, conf, meta)
    case RegAdd(conf, meta) => RegOK(s, conf, meta) && meta.gatewayAddr != "" && meta.connectionID in s.db.facts
    case RegExpire(conf, meta) => RegOK(s, conf, meta)
    case RefGet(conf, user, id) => conf.gatewayAddr != "" && id !in s.retired
    case CleanRem(user, id) => CleanOK(s, user, id)
    case CleanDel(user, id) => CleanOK(s, user, id) && id !in Members(s.db, user)
    case ReadMembers(_, _) => true
    case ReadFacts(user, _, todo, stale) =>
      && (forall id :: id in todo ==>
          id in s.owner && s.owner[id] == user && (id in s.db.facts || id in s.retired))
      && (forall id :: id in stale ==> id in s.retired && id !in s.db.facts)
  }

  ghost predicate RegOK(s: State, conf: S.StoreConf, meta: ConnectionMeta) {
    && conf.gatewayAddr != ""
    && meta.connectionID != "" && meta.userID != ""
    && meta.connectionID in s.owner && s.owner[meta.connectionID] == meta.userID
    && meta.connectionID !in s.retired
  }

  ghost predicate CleanOK(s: State, user: string, id: string) {
    && user != "" && id in s.retired
    && (id in s.owner ==> s.owner[id] == user)
  }

  ghost predicate TasksOK(s: State) { forall tid :: tid in s.tasks ==> TaskOK(s, s.tasks[tid]) }

  ghost predicate Inv(s: State) { FactsOK(s) && IndexOK(s) && GapsOK(s) && TasksOK(s) }

  ghost predicate Initial(s: State) {
    && s.db.facts == map[] && s.db.index == map[] && s.db.script == []
    && s.tasks == map[] && s.owner == map[] && s.retired == {}
  }

  // ----- every step keeps it -----

  lemma StartKeeps(s: State, tid: nat, task: Task)
    requires Inv(s) && tid !in s.tasks && MayStart(s, task)
    ensures Inv(Step(s, Start(tid, task)))
  {
    var s' := Step(s, Start(tid, task));
    forall t | t in s'.tasks ensures TaskOK(s', s'.tasks[t]) {
      if t != tid { assert TaskOK(s, s.tasks[t]); }
      if task.CleanRem? && t != tid { assert !Writes(s.tasks[t], task.id); }
    }
    forall id | id in s'.db.facts && id !in Members(s'.db, s'.db.facts[id].meta.userID)
      ensures exists t :: t in s'.tasks && PendingOn(s'.tasks[t], id)
    {
      var t :| t in s.tasks && PendingOn(s.tasks[t], id);
      assert s'.tasks[t] == s.tasks[t];
    }
  }

  lemma RegSetKeeps(s: State, tid: nat, pick: string)
    requires Inv(s) && tid in s.tasks && s.tasks[tid].RegSet?
    ensures Inv(Step(s, Advance(tid, pick)))
  {
    RegSetFacts(s, tid, pick);
    RegSetTasks(s, tid, pick);
    RegSetGaps(s, tid, pick);
  }

  lemma RegSetFacts(s: State, tid: nat, pick: string)
    requires Inv(s) && tid in s.tasks && s.tasks[tid].RegSet?
    ensures var s' := Step(s, Advance(tid, pick)); FactsOK(s') && IndexOK(s')
  {
    var s' := Step(s, Advance(tid, pick));
    assert TaskOK(s, s.tasks[tid]);
    assert forall user :: Members(s'.db, user) == Members(s.db, user);
  }

  lemma RegSetTasks(s: State, tid: nat, pick: string)
    requires Inv(s) && tid in s.tasks && s.tasks[tid].RegSet?
    ensures TasksOK(Step(s, Advance(tid, pick)))
  {
    var s' := Step(s, Advance(tid, pick));
    assert TaskOK(s, s.tasks[tid]);
    assert forall user :: Members(s'.db, user) == Members(s.db, user);
    forall t | t in s'.tasks ensures TaskOK(s', s'.tasks[t]) {
      if t != tid { assert TaskOK(s, s.tasks[t]); }
    }
  }

  lemma RegSetGaps(s: State, tid: nat, pick: string)
    requires Inv(s) && tid in s.tasks && s.tasks[tid].RegSet?
    ensures GapsOK(Step(s, Advance(tid, pick)))
  {
    var s' := Step(s, Advance(tid, pick));
    var id0 := s.tasks[tid].meta.connectionID;
    assert forall user :: Members(s'.db, user) == Members(s.db, user);
    forall id | id in s'.db.facts && id !in Members(s'.db, s'.db.facts[id].meta.userID)
      ensures exists t :: t in s'.tasks && PendingOn(s'.tasks[t], id)
    {
      if id == id0 {
        assert PendingOn(s'.tasks[tid], id);
      } else {
        var t :| t in s.tasks && PendingOn(s.tasks[t], id);
        assert s'.tasks[t] == s.tasks[t];
      }
    }
  }

  /** Steps that change no fact and drop no index entry of a fact. */
  lemma IndexStepKeeps(s: State, s': State, tid: nat)
    requires Inv(s) && tid in s.tasks
    requires s'.owner == s.owner && s'.retired == s.retired
    requires s'.db == s.db.(index := s'.db.index)
    requires s'.tasks == s.tasks - {tid} || (tid in s'.tasks && s'.tasks == s.tasks[tid := s'.tasks[tid]])
    requires forall user :: user in s'.db.index ==> Unexpired(s'.db.now, s'.db.index[user].expiry)
    requires forall user, id :: id in Members(s'.db, user) ==>
               || id in Members(s.db, user)
               || (id in s.db.facts && id in s.owner && s.owner[id] == user && id !in s.retired)
    requires forall user, id :: id in Members(s.db, user) && id in s.db.facts ==>
               id in Members(s'.db, user) || (tid in s'.tasks && PendingOn(s'.tasks[tid], id))
    requires forall id :: id in s.db.facts && PendingOn(s.tasks[tid], id) ==>
               id in Members(s'.db, s.db.facts[id].meta.userID)
    requires tid in s'.tasks ==> TaskOK(s', s'.tasks[tid])
    ensures Inv(s')
  {
    IndexStepTasks(s, s', tid);
    IndexStepGaps(s, s', tid);
    assert FactsOK(s') && IndexOK(s');
  }

  lemma IndexStepGaps(s: State, s': State, tid: nat)
    requires GapsOK(s) && tid in s.tasks
    requires s'.db.facts == s.db.facts
    requires s'.tasks == s.tasks - {tid} || (tid in s'.tasks && s'.tasks == s.tasks[tid := s'.tasks[tid]])
    requires forall user, id :: id in Members(s.db, user) && id in s.db.facts ==>
               id in Members(s'.db, user) || (tid in s'.tasks && PendingOn(s'.tasks[tid], id))
    requires forall id :: id in s.db.facts && PendingOn(s.tasks[tid], id) ==>
               id in Members(s'.db, s.db.facts[id].meta.userID)
    ensures GapsOK(s')
  {
    forall id | id in s'.db.facts && id !in Members(s'.db, s'.db.facts[id].meta.userID)
      ensures exists t :: t in s'.tasks && PendingOn(s'.tasks[t], id)
    {
      if id !in Members(s.db, s.db.facts[id].meta.userID) {
        var t :| t in s.tasks && PendingOn(s.tasks[t], id);
        assert t != tid && s'.tasks[t] == s.tasks[t];
      }
    }
  }

  lemma IndexStepTasks(s: State, s': State, tid: nat)
    requires Inv(s) && tid in s.tasks
    requires s'.owner == s.owner && s'.retired == s.retired
    requires s'.db == s.db.(index := s'.db.index)
    requires s'.tasks == s.tasks - {tid} || (tid in s'.tasks && s'.tasks == s.tasks[tid := s'.tasks[tid]])
    requires forall user, id :: id in Members(s'.db, user) ==>
               || id in Members(s.db, user)
               || (id in s.db.facts && id in s.owner && s.owner[id] == user && id !in s.retired)
    requires tid in s'.tasks ==> TaskOK(s', s'.tasks[tid])
    ensures TasksOK(s')
  {
    forall t | t in s'.tasks ensures TaskOK(s', s'.tasks[t]) {
      if t != tid { assert TaskOK(s, s.tasks[t]); }
    }
  }

  /** Steps that only read. */
  lemma ReadStepKeeps(s: State, s': State, tid: nat)
    requires Inv(s) && tid in s.tasks && !s.tasks[tid].RegAdd? && !s.tasks[tid].CleanDel?
    requires s'.owner == s.owner && s'.retired == s.retired && s'.db == s.db
    requires s'.tasks == s.tasks - {tid} || (tid in s'.tasks && s'.tasks == s.tasks[tid := s'.tasks[tid]])
    requires tid in s'.tasks ==> TaskOK(s', s'.tasks[tid])
    ensures Inv(s')
  {
    IndexStepKeeps(s, s', tid);
  }

  lemma AddMemberExact(db: Db, user: string, id: string)
    ensures var db' := AddMember(db, user, id);
            && user in db'.index && Unexpired(db.now, db'.index[user].expiry)
            && (forall other :: other != user && other in db'.index ==>
                other in db.index && db'.index[other] == db.index[other])
            && (forall other ::
                Members(db', other) == if other == user then Members(db, user) + {id} else Members(db, other))
  {
  }

  lemma RegAddKeeps(s: State, tid: nat, pick: string)
    requires Inv(s) && tid in s.tasks && s.tasks[tid].RegAdd?
    ensures Inv(Step(s, Advance(tid, pick)))
  {
    var s' := Step(s, Advance(tid, pick));
    var meta := s.tasks[tid].meta;
    assert TaskOK(s, s.tasks[tid]);
    AddMemberExact(s.db, meta.userID, meta.connectionID);
    IndexStepKeeps(s, s', tid);
  }

  lemma RegExpireKeeps(s: State, tid: nat, pick: string)
    requires Inv(s) && tid in s.tasks && s.tasks[tid].RegExpire?
    ensures Inv(Step(s, Advance(tid, pick)))
  {
    var s' := Step(s, Advance(tid, pick));
    assert forall user :: Members(s'.db, user) == Members(s.db, user);
    IndexStepKeeps(s, s', tid);
  }

  lemma RefGetKeeps(s: State, tid: nat, pick: string)
    requires Inv(s) && tid in s.tasks && s.tasks[tid].RefGet?
    ensures Inv(Step(s, Advance(tid, pick)))
  {
    assert TaskOK(s, s.tasks[tid]);
    ReadStepKeeps(s, Step(s, Advance(tid, pick)), tid);
  }

  lemma CleanRemKeeps(s: State, tid: nat, pick: string)
    requires Inv(s) && tid in s.tasks && s.tasks[tid].CleanRem?
    ensures Inv(Step(s, Advance(tid, pick)))
  {
    var s' := Step(s, Advance(tid, pick));
    assert TaskOK(s, s.tasks[tid]);
    IndexStepKeeps(s, s', tid);
  }

  lemma CleanDelKeeps(s: State, tid: nat, pick: string)
    requires Inv(s) && tid in s.tasks && s.tasks[tid].CleanDel?
    ensures Inv(Step(s, Advance(tid, pick)))
  {
    var s' := Step(s, Advance(tid, pick));
    var task := s.tasks[tid];
    assert TaskOK(s, task);
    assert forall user :: Members(s'.db, user) == Members(s.db, user);
    forall t | t in s'.tasks ensures TaskOK(s', s'.tasks[t]) {
      assert TaskOK(s, s.tasks[t]);
    }
    forall id | id in s'.db.facts && id !in Members(s'.db, s'.db.facts[id].meta.userID)
      ensures exists t :: t in s'.tasks && PendingOn(s'.tasks[t], id)
    {
      var t :| t in s.tasks && PendingOn(s.tasks[t], id);
      assert t != tid && s'.tasks[t] == s.tasks[t];
    }
  }

  /** What a reader is about to remove from the index has no fact. */
  lemma ReaderSpares(s: State, tid: nat)
    requires Inv(s) && tid in s.tasks && s.tasks[tid].ReadFacts?
    ensures forall id :: id in s.tasks[tid].stale ==> id !in s.db.facts
  {
    assert TaskOK(s, s.tasks[tid]);
  }

  /** A command of a reader whose stale IDs have no fact. */
  lemma ReaderTaskKeepsRoutes(db: Db, task: Task, pick: string, user: string, id: string)
    requires db.script == [] && (task.ReadMembers? || task.ReadFacts?)
    requires task.ReadFacts? ==> forall x :: x in task.stale ==> x !in db.facts
    ensures var db' := TaskStep(db, task, pick).0;
            && db'.facts == db.facts
            && (id in Members(db, user) && id in db.facts ==> id in Members(db', user))
  {
    if task.ReadFacts? { RemoveMembersExact(db, task.user, task.stale, user); }
  }

  lemma ReaderKeepsRoutes(s: State, tid: nat, pick: string, user: string, id: string)
    requires Inv(s) && tid in s.tasks && (s.tasks[tid].ReadMembers? || s.tasks[tid].ReadFacts?)
    ensures var s' := Step(s, Advance(tid, pick));
            && s'.db.facts == s.db.facts
            && (id in Members(s.db, user) && id in s.db.facts ==> id in Members(s'.db, user))
  {
    if s.tasks[tid].ReadFacts? { ReaderSpares(s, tid); }
    ReaderTaskKeepsRoutes(s.db, s.tasks[tid], pick, user, id);
  }

  lemma ReadMembersKeeps(s: State, tid: nat, pick: string)
    requires Inv(s) && tid in s.tasks && s.tasks[tid].ReadMembers?
    ensures Inv(Step(s, Advance(tid, pick)))
  {
    ReadStepKeeps(s, Step(s, Advance(tid, pick)), tid);
  }

  lemma CheckKeeps(s: State, tid: nat, pick: string)
    requires Inv(s) && tid in s.tasks && s.tasks[tid].ReadFacts? && pick in s.tasks[tid].todo
    ensures Inv(Step(s, Advance(tid, pick)))
  {
    var task := s.tasks[tid];
    assert TaskOK(s, task);
    ReaderStep(s.db, task.user, task.sweeping, task.todo, task.stale, pick);
    ReadStepKeeps(s, Step(s, Advance(tid, pick)), tid);
  }

  lemma RepairKeeps(s: State, tid: nat, pick: string)
    requires Inv(s) && tid in s.tasks && s.tasks[tid].ReadFacts? && s.tasks[tid].todo == {}
    ensures Inv(Step(s, Advance(tid, pick)))
  {
    var s', task := Step(s, Advance(tid, pick)), s.tasks[tid];
    assert TaskOK(s, task);
    if task.stale == {} {
      ReadStepKeeps(s, s', tid);
    } else {
      forall user
        ensures Members(s'.db, user) == if user == task.user then Members(s.db, user) - task.stale
                                        else Members(s.db, user)
      {
        RemoveMembersExact(s.db, task.user, task.stale, user);
      }
      IndexStepKeeps(s, s', tid);
    }
  }

  lemma ReadFactsKeeps(s: State, tid: nat, pick: string)
    requires Inv(s) && tid in s.tasks && s.tasks[tid].ReadFacts?
    ensures Inv(Step(s, Advance(tid, pick)))
  {
    if pick in s.tasks[tid].todo {
      CheckKeeps(s, tid, pick);
    } else if s.tasks[tid].todo == {} {
      RepairKeeps(s, tid, pick);
    } else {
      assert s.tasks[tid := s.tasks[tid]] == s.tasks;
    }
  }

  lemma StepKeeps(s: State, e: Event)
    requires Inv(s) && Enabled(s, e)
    ensures Inv(Step(s, e))
  {
    match e
    case Start(tid, task) => StartKeeps(s, tid, task);
    case Advance(tid, pick) =>
      match s.tasks[tid]
      case RegSet(_, _) => RegSetKeeps(s, tid, pick);
      case RegAdd(_, _) => RegAddKeeps(s, tid, pick);
      case RegExpire(_, _) => RegExpireKeeps(s, tid, pick);
      case RefGet(_, _, _) => RefGetKeeps(s, tid, pick);
      case CleanRem(_, _) => CleanRemKeeps(s, tid, pick);
      case CleanDel(_, _) => CleanDelKeeps(s, tid, pick);
      case ReadMembers(_, _) => ReadMembersKeeps(s, tid, pick);
      case ReadFacts(_, _, _, _) => ReadFactsKeeps(s, tid, pick);
  }

  lemma {:induction false} BehaviourKeeps(s: State, events: seq<Event>)
    requires Initial(s) && Behaves(s, events)
    ensures Inv(Execute(s, events))
  {
    if events != [] {
      BehaviourKeeps(s, events[..|events| - 1]);
      StepKeeps(Execute(s, events[..|events| - 1]), events[|events| - 1]);
    }
  }

  // ----- what it means -----

  /** In every interleaving of any number of operations: each indexed ID has a fact
      of that user, and each fact that no operation is writing or cleaning up is in
      its owner's set. */
  lemma EveryInterleavingIsConsistent(s: State, events: seq<Event>)
    requires Initial(s) && Behaves(s, events)
    ensures var s' := Execute(s, events);
            && (forall user, id :: id in Members(s'.db, user) ==> Owns(s'.db, user, id))
            && (forall id :: id in s'.db.facts && !Busy(s', id) ==> id in Members(s'.db, s'.db.facts[id].meta.userID))
  {
    BehaviourKeeps(s, events);
    var s' := Execute(s, events);
    forall user, id | id in Members(s'.db, user) ensures Owns(s'.db, user, id) {
      assert id in s'.db.facts && s'.db.facts[id].meta.userID == s'.owner[id];
    }
    forall id | id in s'.db.facts && id !in Members(s'.db, s'.db.facts[id].meta.userID) ensures Busy(s', id) {
      var t :| t in s'.tasks && PendingOn(s'.tasks[t], id);
      assert Writes(s'.tasks[t], id) || Cleans(s'.tasks[t], id);
    }
  }

  /** In every interleaving, no command of a read or a sweep takes a live fact out
      of the index. */
  lemma ReadersNeverDropLiveRoutes(s: State, events: seq<Event>, tid: nat, pick: string, user: string, id: string)
    requires Initial(s) && Behaves(s, events)
    requires var s1 := Execute(s, events); tid in s1.tasks && (s1.tasks[tid].ReadMembers? || s1.tasks[tid].ReadFacts?)
    ensures var s1 := Execute(s, events);
            var s2 := Step(s1, Advance(tid, pick));
            && s2.db.facts == s1.db.facts
            && (id in Members(s1.db, user) && id in s1.db.facts ==> id in Members(s2.db, user))
  {
    BehaviourKeeps(s, events);
    ReaderKeepsRoutes(Execute(s, events), tid, pick, user, id);
  }

  // ----- a completed cleanup is final -----

  /** An ID whose cleanup began has a fact only while a cleanup of it is in flight. */
  ghost predicate RetiredOK(s: State) {
    forall id :: id in s.retired && id in s.db.facts ==> exists t :: t in s.tasks && Cleans(s.tasks[t], id)
  }

  /** Only a registration's first command adds a fact, only a cleanup's last drops one. */
  lemma TaskFacts(db: Db, task: Task, pick: string, id: string)
    requires db.script == []
    ensures var (db', next) := TaskStep(db, task, pick);
            && (id in db'.facts && id !in db.facts ==> task.RegSet? && Writes(task, id))
            && (id in db'.facts && Cleans(task, id) ==> next.Some? && Cleans(next.value, id))
  {
  }

  lemma NewFactsNotRetired(s: State, e: Event, id: string)
    requires Inv(s) && Enabled(s, e) && id in s.retired && id !in s.db.facts
    ensures id in Step(s, e).retired && id !in Step(s, e).db.facts
  {
    if e.Advance? {
      assert TaskOK(s, s.tasks[e.tid]);
      TaskFacts(s.db, s.tasks[e.tid], e.pick, id);
    }
  }

  lemma RetiredStep(s: State, e: Event)
    requires Inv(s) && Enabled(s, e) && RetiredOK(s)
    ensures RetiredOK(Step(s, e))
  {
    var s' := Step(s, e);
    forall id | id in s'.retired && id in s'.db.facts ensures exists t :: t in s'.tasks && Cleans(s'.tasks[t], id) {
      if e.Start? && e.task.CleanRem? && id == e.task.id {
        assert Cleans(s'.tasks[e.tid], id);
      } else {
        if id !in s.db.facts { NewFactsNotRetired(s, e, id); }
        var t :| t in s.tasks && Cleans(s.tasks[t], id);
        StillCleans(s, e, t, id);
      }
    }
  }

  lemma StillCleans(s: State, e: Event, t: nat, id: string)
    requires Inv(s) && Enabled(s, e) && t in s.tasks && Cleans(s.tasks[t], id) && id in Step(s, e).db.facts
    ensures t in Step(s, e).tasks && Cleans(Step(s, e).tasks[t], id)
  {
    if e.Advance? { TaskFacts(s.db, s.tasks[e.tid], e.pick, id); }
  }

  lemma {:induction false} BehaviourRetires(s: State, events: seq<Event>)
    requires Initial(s) && Behaves(s, events)
    ensures RetiredOK(Execute(s, events))
  {
    if events != [] {
      var n := |events| - 1;
      BehaviourRetires(s, events[..n]);
      BehaviourKeeps(s, events[..n]);
      RetiredStep(Execute(s, events[..n]), events[n]);
    }
  }

  /** In every interleaving, once a cleanup of an ID has begun and none is in flight, the
      ID has no fact, is in no set, and no further event brings its fact back. */
  lemma CleanupIsFinal(s: State, events: seq<Event>, e: Event, id: string)
    requires Initial(s) && Behaves(s, events) && Enabled(Execute(s, events), e)
    requires var s1 := Execute(s, events);
             id in s1.retired && forall t :: t in s1.tasks ==> !Cleans(s1.tasks[t], id)
    ensures var s1 := Execute(s, events);
            && id !in s1.db.facts
            && (forall user :: id !in Members(s1.db, user))
            && id !in Step(s1, e).db.facts
  {
    BehaviourRetires(s, events);
    BehaviourKeeps(s, events);
    NewFactsNotRetired(Execute(s, events), e, id);
  }

  // ----- why cleanups must not overlap writes -----

  /** A refresh that read the record before a complete cleanup brings the route back
      after it, for every live route: the last command sequence below ends with the
      deleted connection stored and indexed. */
  lemma RefreshAcrossCleanupResurrects(db: Db, conf: S.StoreConf, user: string, id: string)
    requires db.script == [] && user != "" && Keyed(db) && Owns(db, user, id)
    ensures var read := TaskStep(db, RefGet(conf, user, id), "");
            var cleaned := S.Cleanup(read.0, user, id).0;
            && read.1.Some? && S.Seen(cleaned, id).None?
            && Owns(Solo(cleaned, read.1.value), user, id)
            && id in Members(Solo(cleaned, read.1.value), user)
  {
    var read := TaskStep(db, RefGet(conf, user, id), "");
    CleanupExact(read.0, user, id);
    var cleaned := S.Cleanup(read.0, user, id).0;
    SoloWrites(cleaned, conf, read.1.value.meta, user, id);
    R.RegisterQuiet(conf, cleaned, read.1.value.meta);
  }

  /** A registration interrupted by a complete cleanup after its first command leaves
      an index entry without a fact. */
  lemma RegisterAcrossCleanupDangles(db: Db, conf: S.StoreConf, meta: ConnectionMeta)
    requires db.script == [] && meta.userID != "" && meta.connectionID != ""
    ensures var stored := TaskStep(db, RegSet(conf, meta), "");
            var cleaned := S.Cleanup(stored.0, meta.userID, meta.connectionID).0;
            var end := Solo(cleaned, stored.1.value);
            meta.connectionID in Members(end, meta.userID) && meta.connectionID !in end.facts
  {
    var stored := TaskStep(db, RegSet(conf, meta), "");
    CleanupExact(stored.0, meta.userID, meta.connectionID);
    var cleaned := S.Cleanup(stored.0, meta.userID, meta.connectionID).0;
    var added := TaskStep(cleaned, stored.1.value, "");
    assert Solo(cleaned, stored.1.value) == Solo(added.0, added.1.value);
    assert Solo(added.0, added.1.value) == TaskStep(added.0, added.1.value, "").0;
  }
}
