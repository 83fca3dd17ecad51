/** Pushes interleaved with connections that come and go (src/push/router.go against
    src/frontier/hub.go): every step is one lookup in a hub or one Redis command. Time
    stands still and Redis does not fail. A push to a user reads a route before it asks
    the hub, a push to one connection asks its own hub first. */
module RouteRaces {
  import opened RouteModel
  import opened Redis
  import S = RouteSpec
  import opened RouteReads
  import P = RouteProtocol

  /** Work between two of its steps. `stale` is the route the caller of a remote push
      cleans up when the remote gateway has found it stale. */
  datatype Task =
    | Store(op: P.Task, stale: Option<ConnectionMeta>)
    | UserGet(at: string, id: string)
    | LocalLook(at: string, meta: ConnectionMeta)
    | DirectLook(at: string, id: string, stale: Option<ConnectionMeta>)
    | DirectGet(at: string, id: string, stale: Option<ConnectionMeta>)

  /** `joined` records the gateway and the user of every ID that was ever in a hub. */
  datatype State = State(db: Db, hubs: map<string, set<string>>, joined: map<string, (string, string)>,
      tasks: map<nat, Task>)

  datatype Event =
    | Join(tid: nat, conf: S.StoreConf, meta: ConnectionMeta)
    | Leave(tid: nat, g: string, id: string)
    | PushUser(tid: nat, at: string, id: string)
    | PushConnection(tid: nat, at: string, id: string)
    | Advance(tid: nat)

  predicate Registers(task: Task) { task.Store? && (task.op.RegSet? || task.op.RegAdd? || task.op.RegExpire?) }

  predicate RegistersID(task: Task, id: string) { Registers(task) && task.op.meta.connectionID == id }

  predicate RegistersAt(task: Task, g: string) { Registers(task) && task.op.conf.gatewayAddr == g }

  /** The hub at `g` is locked by a registration. */
  ghost predicate Locked(s: State, g: string) { exists t :: t in s.tasks && RegistersAt(s.tasks[t], g) }

  function HubAt(s: State, g: string): set<string> { if g in s.hubs then s.hubs[g] else {} }

  function Cleaning(meta: ConnectionMeta): Task { Store(P.CleanRem(meta.userID, meta.connectionID), None) }

  /** What follows a stale verdict: the caller's own cleanup, if there is a caller. */
  function Then(stale: Option<ConnectionMeta>): Option<Task> {
    match stale
    case None => None
    case Some(meta) => Some(Cleaning(meta))
  }

  /** The database and the task after its next step; a lookup in a locked hub waits. */
  ghost function TaskStep(s: State, task: Task): (Db, Option<Task>) {
    match task
    case Store(op, stale) =>
      var (db', next) := P.TaskStep(s.db, op, "");
      (db', if next.Some? then Some(Store(next.value, stale)) else Then(stale))
    case UserGet(at, id) =>
      (match S.Seen(s.db, id)
       case None => (s.db, None)
       case Some(meta) =>
         (s.db, Some(if meta.gatewayAddr == at then LocalLook(at, meta)
                     else DirectLook(meta.gatewayAddr, id, Some(meta)))))
    case LocalLook(at, meta) =>
      if Locked(s, at) then (s.db, Some(task))
      else (s.db, if meta.connectionID in HubAt(s, at) then None else Some(Cleaning(meta)))
    case DirectLook(at, id, stale) =>
      if Locked(s, at) then (s.db, Some(task))
      else (s.db, if id in HubAt(s, at) then None else Some(DirectGet(at, id, stale)))
    case DirectGet(at, id, stale) =>
      (match S.Seen(s.db, id)
       case None => (s.db, None)
       case Some(meta) =>
         (s.db, Some(if meta.gatewayAddr == at then Store(P.CleanRem(meta.userID, id), stale)
                     else DirectLook(meta.gatewayAddr, id, stale))))
  }

  /** A hub's own loop registers and unregisters one connection after the other; IDs are
      not blank and never used again. */
  ghost predicate Enabled(s: State, e: Event) {
    match e
    case Join(tid, conf, meta) =>
      && tid !in s.tasks && conf.gatewayAddr in s.hubs && conf.gatewayAddr != "" && !Locked(s, conf.gatewayAddr)
      && meta.gatewayAddr == conf.gatewayAddr && meta.userID != "" && !Blank(meta.connectionID)
      && meta.connectionID !in s.joined
    case Leave(tid, g, id) => tid !in s.tasks && g in s.hubs && id in s.hubs[g] && id in s.joined && !Locked(s, g)
    case PushUser(tid, _, _) => tid !in s.tasks
    case PushConnection(tid, _, _) => tid !in s.tasks
    case Advance(tid) => tid in s.tasks
  }

  ghost function Step(s: State, e: Event): State
    requires Enabled(s, e)
  {
    match e
    case Join(tid, conf, meta) =>
      var g, id := conf.gatewayAddr, meta.connectionID;
      State(s.db, s.hubs[g := s.hubs[g] + {id}], s.joined[id := (g, meta.userID)],
            s.tasks[tid := Store(P.RegSet(conf, meta), None)])
    case Leave(tid, g, id) =>
      s.(hubs := s.hubs[g := s.hubs[g] - {id}],
         tasks := s.tasks[tid := Store(P.CleanRem(s.joined[id].1, id), None)])
    case PushUser(tid, at, id) => s.(tasks := s.tasks[tid := UserGet(at, id)])
    case PushConnection(tid, at, id) => s.(tasks := s.tasks[tid := DirectLook(at, id, None)])
    case Advance(tid) =>
      var (db', next) := TaskStep(s, s.tasks[tid]);
      s.(db := db', tasks := if next.None? then s.tasks - {tid} else s.tasks[tid := next.value])
  }

  /** A run: each state comes from the one before by an enabled event. */
  ghost predicate IsRun(states: seq<State>, events: seq<Event>) {
    |states| == |events| + 1 && forall i :: 0 <= i < |events| ==> LeadsAt(states, events, i)
  }

  ghost predicate LeadsAt(states: seq<State>, events: seq<Event>, i: nat)
    requires i < |events| && |states| == |events| + 1
  {
    Leads(states[i], events[i], states[i + 1])
  }

  ghost predicate Leads(s: State, e: Event, s': State) { Enabled(s, e) && s' == Step(s, e) }

  ghost predicate Initial(s: State) {
    && s.db.facts == map[] && s.db.index == map[] && s.db.script == []
    && s.joined == map[] && s.tasks == map[] && forall g :: g in s.hubs ==> s.hubs[g] == {}
  }

  /** A push to one connection starts when the connection has joined: its ID is not known
      before. */
  ghost predicate Known(s: State, e: Event) { e.PushConnection? ==> e.id in s.joined }

  ghost predicate KnownRun(states: seq<State>, events: seq<Event>) {
    IsRun(states, events) && forall i :: 0 <= i < |events| ==> Known(states[i], events[i])
  }

  /** The connection's record and entry are there and name its gateway. */
  predicate HasRoute(db: Db, g: string, user: string, id: string) {
    Owns(db, user, id) && S.Seen(db, id).value.gatewayAddr == g && id in Members(db, user)
  }

  ghost predicate BeingRegistered(s: State, id: string) {
    exists t :: t in s.tasks && RegistersID(s.tasks[t], id)
  }

  /** No connection in a hub is without its route once its registration is complete. */
  ghost predicate NoRouteLost(s: State) {
    forall g, id :: g in s.hubs && id in s.hubs[g] && !BeingRegistered(s, id) ==>
      id in s.joined && HasRoute(s.db, g, s.joined[id].1, id)
  }

  // ----- the invariant -----

  /** The connection has joined and left, or never was anywhere but where it joined. */
  predicate Gone(s: State, id: string) { id in s.joined && id !in HubAt(s, s.joined[id].0) }

  predicate FactOK(s: State, id: string)
    requires id in s.db.facts
  {
    var f := s.db.facts[id];
    && id in s.joined && !Blank(id) && f.meta.connectionID == id && s.db.now < f.expiry
    && f.meta.gatewayAddr == s.joined[id].0 && f.meta.userID == s.joined[id].1
  }

  ghost predicate StoreOK(s: State) {
    && s.db.script == []
    && (forall id :: id in s.db.facts ==> FactOK(s, id))
    && (forall user :: user in s.db.index ==> Unexpired(s.db.now, s.db.index[user].expiry))
    && (forall id :: id in s.joined ==> s.joined[id].0 != "" && s.joined[id].1 != "" && !Blank(id))
    && (forall g, id :: g in s.hubs && id in s.hubs[g] ==> id in s.joined && s.joined[id].0 == g)
  }

  predicate RegisteringOK(s: State, conf: S.StoreConf, meta: ConnectionMeta) {
    var id := meta.connectionID;
    && id in s.joined && s.joined[id] == (conf.gatewayAddr, meta.userID) && meta.gatewayAddr == conf.gatewayAddr
    && id in HubAt(s, conf.gatewayAddr)
  }

  predicate TaskOK(s: State, task: Task) {
    match task
    case Store(op, stale) =>
      && (match op
          case RegSet(conf, meta) => RegisteringOK(s, conf, meta) && stale.None?
          case RegAdd(conf, meta) => RegisteringOK(s, conf, meta) && stale.None? && meta.connectionID in s.db.facts
          case RegExpire(conf, meta) =>
            && RegisteringOK(s, conf, meta) && stale.None?
            && HasRoute(s.db, conf.gatewayAddr, meta.userID, meta.connectionID)
          case CleanRem(user, id) => Gone(s, id) && StaleOK(id, stale)
          case CleanDel(user, id) => Gone(s, id) && StaleOK(id, stale)
          case _ => false)
    case UserGet(_, _) => true
    case LocalLook(at, meta) => meta.connectionID in s.joined && s.joined[meta.connectionID].0 == at
    case DirectLook(at, id, stale) => id in s.joined && StaleOK(id, stale)
    case DirectGet(at, id, stale) => id in s.joined && id !in HubAt(s, at) && StaleOK(id, stale)
  }

  predicate StaleOK(id: string, stale: Option<ConnectionMeta>) { stale.Some? ==> stale.value.connectionID == id }

  ghost predicate Inv(s: State) {
    StoreOK(s) && NoRouteLost(s) && forall t :: t in s.tasks ==> TaskOK(s, s.tasks[t])
  }

  // ----- every step keeps it -----

  /** What a command of a registration or cleanup leaves of another route. */
  lemma CommandKeepsRoute(db: Db, op: P.Task, g: string, user: string, id: string)
    requires db.script == [] && HasRoute(db, g, user, id)
    requires op.RegSet? || op.RegAdd? || op.RegExpire? || op.CleanRem? || op.CleanDel?
    requires op.RegSet? && op.meta.connectionID == id ==> op.meta.userID == user && op.meta.gatewayAddr == g != ""
    requires op.CleanRem? || op.CleanDel? ==> op.id != id
    ensures HasRoute(P.TaskStep(db, op, "").0, g, user, id)
  {
    match op
    case RegAdd(_, meta) => P.AddMemberExact(db, meta.userID, meta.connectionID);
    case CleanRem(u, x) => RemoveMembersExact(db, u, {x}, user);
    case _ =>
  }

  lemma CommandKeepsStore(s: State, task: Task)
    requires StoreOK(s) && TaskOK(s, task) && task.Store?
    ensures StoreOK(s.(db := P.TaskStep(s.db, task.op, "").0))
  {
  }

  /** No ID that has joined appears in a hub again, and only those that have left lose
      their record or entry. */
  ghost predicate Evolves(s: State, s': State) {
    && (forall id :: id in s.joined ==> id in s'.joined && s'.joined[id] == s.joined[id])
    && (forall g, id :: id in s.joined && id in HubAt(s', g) ==> id in HubAt(s, g))
    && (forall id :: id in s.db.facts && !Gone(s', id) ==> id in s'.db.facts)
    && (forall g, user, id :: HasRoute(s.db, g, user, id) && !Gone(s', id) ==> HasRoute(s'.db, g, user, id))
  }

  lemma TaskStaysOK(s: State, s': State, task: Task)
    requires StoreOK(s) && TaskOK(s, task) && Evolves(s, s')
    requires Registers(task) ==> task.op.meta.connectionID in HubAt(s', task.op.conf.gatewayAddr)
    ensures TaskOK(s', task)
  {
  }

  lemma CommandEvolves(s: State, task: Task)
    requires StoreOK(s) && TaskOK(s, task) && task.Store?
    ensures Evolves(s, s.(db := P.TaskStep(s.db, task.op, "").0))
  {
    var s' := s.(db := P.TaskStep(s.db, task.op, "").0);
    forall g, user, id | HasRoute(s.db, g, user, id) && !Gone(s', id) ensures HasRoute(s'.db, g, user, id) {
      assert id in s.db.facts;
      CommandKeepsRoute(s.db, task.op, g, user, id);
    }
  }

  lemma NextTaskOK(s: State, task: Task)
    requires StoreOK(s) && TaskOK(s, task)
    ensures var (db', next) := TaskStep(s, task);
            next.Some? ==> TaskOK(s.(db := db'), next.value)
  {
    match task
    case Store(op, stale) =>
      if op.RegAdd? { P.AddMemberExact(s.db, op.meta.userID, op.meta.connectionID); }
    case _ =>
  }

  lemma StepEvolves(s: State, task: Task)
    requires StoreOK(s) && TaskOK(s, task)
    ensures var s1 := s.(db := TaskStep(s, task).0); Evolves(s, s1) && StoreOK(s1)
  {
    if task.Store? {
      CommandEvolves(s, task);
      CommandKeepsStore(s, task);
    }
  }

  lemma AdvanceKeepsTasks(s: State, tid: nat)
    requires Inv(s) && tid in s.tasks
    ensures var s1 := s.(db := TaskStep(s, s.tasks[tid]).0);
            forall t :: t in s.tasks && t != tid ==> TaskOK(s1, s.tasks[t])
  {
    var s1 := s.(db := TaskStep(s, s.tasks[tid]).0);
    assert TaskOK(s, s.tasks[tid]);
    StepEvolves(s, s.tasks[tid]);
    forall t | t in s.tasks && t != tid ensures TaskOK(s1, s.tasks[t]) {
      assert TaskOK(s, s.tasks[t]);
      TaskStaysOK(s, s1, s.tasks[t]);
    }
  }

  lemma AdvanceKeeps(s: State, tid: nat)
    requires Inv(s) && tid in s.tasks
    ensures Inv(Step(s, Advance(tid)))
  {
    var (s1, s') := (s.(db := TaskStep(s, s.tasks[tid]).0), Step(s, Advance(tid)));
    assert TaskOK(s, s.tasks[tid]);
    StepEvolves(s, s.tasks[tid]);
    NextTaskOK(s, s.tasks[tid]);
    AdvanceKeepsTasks(s, tid);
    AdvanceKeepsRoutes(s, tid);
    OnlyTasksChange(s1, s'.tasks);
  }

  lemma OnlyTasksChange(s: State, tasks: map<nat, Task>)
    requires StoreOK(s) && forall t :: t in tasks ==> TaskOK(s, tasks[t])
    ensures var s' := s.(tasks := tasks); StoreOK(s') && forall t :: t in tasks ==> TaskOK(s', tasks[t])
  {
  }

  lemma AdvanceKeepsRoutes(s: State, tid: nat)
    requires Inv(s) && tid in s.tasks
    ensures NoRouteLost(Step(s, Advance(tid)))
  {
    var s' := Step(s, Advance(tid));
    forall g, id | g in s'.hubs && id in s'.hubs[g] && !BeingRegistered(s', id)
      ensures id in s'.joined && HasRoute(s'.db, g, s'.joined[id].1, id)
    {
      AdvanceKeepsRoute(s, tid, g, id);
    }
  }

  /** A registration goes on until its last command. */
  lemma RegistrationGoesOn(s: State, tid: nat)
    requires Inv(s) && tid in s.tasks && Registers(s.tasks[tid])
    ensures s.tasks[tid].op.RegExpire? || BeingRegistered(Step(s, Advance(tid)), s.tasks[tid].op.meta.connectionID)
  {
    var s' := Step(s, Advance(tid));
    assert s.tasks[tid].op.RegExpire? ||
           (tid in s'.tasks && Registers(s'.tasks[tid]) &&
            s'.tasks[tid].op.meta.connectionID == s.tasks[tid].op.meta.connectionID);
  }

  lemma NotRegisteredBefore(s: State, s': State, id: string)
    requires !BeingRegistered(s', id)
    requires forall t :: t in s.tasks && RegistersID(s.tasks[t], id) ==> t in s'.tasks && s'.tasks[t] == s.tasks[t]
    ensures !BeingRegistered(s, id)
  {
  }

  lemma AdvanceKeepsRoute(s: State, tid: nat, g: string, id: string)
    requires Inv(s) && tid in s.tasks && g in s.hubs && id in s.hubs[g]
    requires !BeingRegistered(Step(s, Advance(tid)), id)
    ensures HasRoute(Step(s, Advance(tid)).db, g, s.joined[id].1, id)
  {
    var task := s.tasks[tid];
    var s' := Step(s, Advance(tid));
    if RegistersID(task, id) {
      RegistrationGoesOn(s, tid);
      assert TaskOK(s, task);
      CommandKeepsRoute(s.db, task.op, g, s.joined[id].1, id);
    } else {
      NotRegisteredBefore(s, s', id);
      if task.Store? { CommandEvolves(s, task); }
    }
  }

  lemma StartKeeps(s: State, s': State, tid: nat)
    requires Inv(s) && tid !in s.tasks && tid in s'.tasks && s' == s.(tasks := s.tasks[tid := s'.tasks[tid]])
    requires TaskOK(s, s'.tasks[tid])
    ensures Inv(s')
  {
    forall t | t in s'.tasks ensures TaskOK(s', s'.tasks[t]) {
      if t != tid { assert TaskOK(s, s.tasks[t]); }
    }
    forall g, id | g in s'.hubs && id in s'.hubs[g] && !BeingRegistered(s', id)
      ensures id in s'.joined && HasRoute(s'.db, g, s'.joined[id].1, id)
    {
      NotRegisteredBefore(s, s', id);
    }
  }

  lemma JoinKeepsTasks(s: State, tid: nat, conf: S.StoreConf, meta: ConnectionMeta)
    requires Inv(s) && Enabled(s, Join(tid, conf, meta))
    ensures var s' := Step(s, Join(tid, conf, meta));
            StoreOK(s') && forall t :: t in s'.tasks ==> TaskOK(s', s'.tasks[t])
  {
    var s' := Step(s, Join(tid, conf, meta));
    assert Evolves(s, s');
    forall t | t in s'.tasks ensures TaskOK(s', s'.tasks[t]) {
      if t != tid { TaskStaysOK(s, s', s.tasks[t]); }
    }
  }

  lemma JoinKeeps(s: State, tid: nat, conf: S.StoreConf, meta: ConnectionMeta)
    requires Inv(s) && Enabled(s, Join(tid, conf, meta))
    ensures Inv(Step(s, Join(tid, conf, meta)))
  {
    JoinKeepsTasks(s, tid, conf, meta);
    var s' := Step(s, Join(tid, conf, meta));
    assert RegistersID(s'.tasks[tid], meta.connectionID);
    forall g, id | g in s'.hubs && id in s'.hubs[g] && !BeingRegistered(s', id)
      ensures id in s'.joined && HasRoute(s'.db, g, s'.joined[id].1, id)
    {
      NotRegisteredBefore(s, s', id);
    }
  }

  lemma LeaveEvolves(s: State, tid: nat, g: string, id: string)
    requires StoreOK(s) && Enabled(s, Leave(tid, g, id))
    ensures var s' := Step(s, Leave(tid, g, id)); Evolves(s, s') && StoreOK(s') && Gone(s', id)
  {
  }

  lemma LeaveKeepsTasks(s: State, tid: nat, g: string, id: string)
    requires Inv(s) && Enabled(s, Leave(tid, g, id))
    ensures var s' := Step(s, Leave(tid, g, id));
            StoreOK(s') && forall t :: t in s'.tasks ==> TaskOK(s', s'.tasks[t])
  {
    var s' := Step(s, Leave(tid, g, id));
    LeaveEvolves(s, tid, g, id);
    forall t | t in s'.tasks ensures TaskOK(s', s'.tasks[t]) {
      if t != tid {
        assert !RegistersAt(s.tasks[t], g);
        assert TaskOK(s, s.tasks[t]);
        TaskStaysOK(s, s', s.tasks[t]);
      }
    }
  }

  lemma LeaveKeeps(s: State, tid: nat, g: string, id: string)
    requires Inv(s) && Enabled(s, Leave(tid, g, id))
    ensures Inv(Step(s, Leave(tid, g, id)))
  {
    LeaveKeepsTasks(s, tid, g, id);
    var s' := Step(s, Leave(tid, g, id));
    forall h, x | h in s'.hubs && x in s'.hubs[h] && !BeingRegistered(s', x)
      ensures x in s'.joined && HasRoute(s'.db, h, s'.joined[x].1, x)
    {
      NotRegisteredBefore(s, s', x);
    }
  }

  lemma StepKeeps(s: State, e: Event)
    requires Inv(s) && Enabled(s, e) && Known(s, e)
    ensures Inv(Step(s, e))
  {
    match e
    case Join(tid, conf, meta) => JoinKeeps(s, tid, conf, meta);
    case Leave(tid, g, id) => LeaveKeeps(s, tid, g, id);
    case PushUser(tid, _, _) => StartKeeps(s, Step(s, e), tid);
    case PushConnection(tid, _, _) => StartKeeps(s, Step(s, e), tid);
    case Advance(tid) => AdvanceKeeps(s, tid);
  }

  lemma {:induction false} RunKeeps(states: seq<State>, events: seq<Event>, k: nat)
    requires KnownRun(states, events) && Initial(states[0]) && k < |states|
    ensures Inv(states[k])
  {
    if k > 0 {
      RunKeeps(states, events, k - 1);
      assert LeadsAt(states, events, k - 1) && Known(states[k - 1], events[k - 1]);
      StepKeeps(states[k - 1], events[k - 1]);
    }
  }

  // ----- what it means -----

  /** In every interleaving of connections that come and go, of pushes to users and of
      pushes to connections that have joined, no connection in a hub loses its route:
      cleanups only ever hit connections that have left. */
  lemma PushesLoseNoRoute(states: seq<State>, events: seq<Event>, k: nat)
    requires KnownRun(states, events) && Initial(states[0]) && k < |states|
    ensures NoRouteLost(states[k])
    ensures forall t, id :: t in states[k].tasks && states[k].tasks[t].Store? && P.Cleans(states[k].tasks[t].op, id) ==>
              Gone(states[k], id)
  {
    RunKeeps(states, events, k);
    forall t, id | t in states[k].tasks && states[k].tasks[t].Store? && P.Cleans(states[k].tasks[t].op, id)
      ensures Gone(states[k], id)
    {
      assert TaskOK(states[k], states[k].tasks[t]);
    }
  }

  // ----- why a push to a connection must not come before it -----

  /** For every gateway and connection: a push that looks for it before it joins and reads
      the store after its registration deletes its route. At the end nothing is in flight,
      the connection is in the hub, and its record and entry are gone. */
  lemma EarlyPushLosesRoute(s: State, conf: S.StoreConf, meta: ConnectionMeta)
    returns (states: seq<State>, events: seq<Event>)
    requires Initial(s) && Enabled(s, Join(1, conf, meta))
    ensures IsRun(states, events) && states[0] == s
    ensures var (end, g, id) := (states[|events|], conf.gatewayAddr, meta.connectionID);
            && end.tasks == map[] && g in end.hubs && id in end.hubs[g]
            && id !in end.db.facts && id !in Members(end.db, meta.userID)
            && !NoRouteLost(end)
  {
    var (g, id) := (conf.gatewayAddr, meta.connectionID);
    states, events := Extend([s], [], PushConnection(0, g, id));
    states, events := Extend(states, events, Advance(0));
    assert states[|events|] == s.(tasks := map[0 := DirectGet(g, id, None)]);
    states, events := Registration(states, events, conf, meta);
    states, events := StaleVerdict(states, events, g, meta.userID, id);
  }

  /** The whole registration runs while the push is under way. */
  lemma Registration(states: seq<State>, events: seq<Event>, conf: S.StoreConf, meta: ConnectionMeta)
    returns (states': seq<State>, events': seq<Event>)
    requires IsRun(states, events)
    requires var s := states[|events|];
             s.tasks.Keys == {0} && s.db.script == [] && s.db.facts == map[] && Enabled(s, Join(1, conf, meta))
    ensures IsRun(states', events') && states'[0] == states[0]
    ensures var (s, s', g, id) := (states[|events|], states'[|events'|], conf.gatewayAddr, meta.connectionID);
            && s'.hubs == s.hubs[g := s.hubs[g] + {id}] && s'.tasks == s.tasks
            && s'.db.script == [] && s'.db.facts.Keys == {id} && HasRoute(s'.db, g, meta.userID, id)
  {
    states', events' := Extend(states, events, Join(1, conf, meta));
    states', events' := Extend(states', events', Advance(1));
    states', events' := Extend(states', events', Advance(1));
    states', events' := Extend(states', events', Advance(1));
  }

  /** The push reads a route to its own gateway and cleans it up. */
  lemma StaleVerdict(states: seq<State>, events: seq<Event>, g: string, user: string, id: string)
    returns (states': seq<State>, events': seq<Event>)
    requires IsRun(states, events)
    requires var s := states[|events|];
             && s.tasks == map[0 := DirectGet(g, id, None)] && s.db.script == []
             && s.db.facts.Keys == {id} && HasRoute(s.db, g, user, id) && g in s.hubs && id in s.hubs[g]
    ensures IsRun(states', events') && states'[0] == states[0]
    ensures var end := states'[|events'|];
            && end.tasks == map[] && g in end.hubs && id in end.hubs[g]
            && id !in end.db.facts && id !in Members(end.db, user) && !NoRouteLost(end)
  {
    states', events' := Extend(states, events, Advance(0));
    states', events' := Extend(states', events', Advance(0));
    states', events' := Extend(states', events', Advance(0));
    RemoveMembersExact(states[|events|].db, user, {id}, user);
    LostNow(states'[|events'|], g, id);
  }

  lemma LostNow(s: State, g: string, id: string)
    requires s.tasks == map[] && g in s.hubs && id in s.hubs[g] && id !in s.db.facts
    ensures !NoRouteLost(s)
  {
    assert !BeingRegistered(s, id);
    forall user ensures !HasRoute(s.db, g, user, id) {}
  }

  lemma Extend(states: seq<State>, events: seq<Event>, e: Event) returns (states': seq<State>, events': seq<Event>)
    requires IsRun(states, events) && Enabled(states[|events|], e)
    ensures IsRun(states', events') && states'[0] == states[0]
    ensures |events'| == |events| + 1 && states'[|events'|] == Step(states[|events|], e)
  {
    states', events' := states + [Step(states[|events|], e)], events + [e];
    forall i | 0 <= i < |events'| ensures LeadsAt(states', events', i) {
      assert i < |events| ==> LeadsAt(states, events, i);
    }
  }
}
