/** What the backend-facing operations promise at every moment of every run of the
    fleet. */
module BackbonTheorems {
  import opened RouteModel
  import opened Redis
  import opened FrontierModel
  import S = RouteSpec
  import opened RouteReads
  import opened RouterSpec
  import opened RouterDelivery
  import T = RouterTheorems
  import opened BackbonSpec
  import opened FleetRuns
  import opened FleetInvariant
  import F = FleetTheorems

  // ----- a push to many users -----

  /** The connection after `n` copies were offered to it. */
  function Offered(c: ConnState, msg: Message, n: nat): (c': ConnState)
    ensures c'.userID == c.userID
  {
    if n == 0 then c else Send(Offered(c, msg, n - 1), msg)
  }

  /** One copy for each time the connection's user is named. */
  function CopiesOf(c: ConnState, users: seq<string>, msg: Message): ConnState {
    if c.userID == "" then c else Offered(c, msg, multiset(users)[c.userID])
  }

  function CopiesFor(hubs: map<string, Hub>, users: seq<string>, msg: Message): map<string, Hub> {
    map g | g in hubs :: map c | c in hubs[g] :: CopiesOf(hubs[g][c], users, msg)
  }

  /** The copies that fit are queued, in order, behind what was there. */
  lemma {:induction false} OfferedExact(c: ConnState, msg: Message, n: nat)
    requires |c.queue| <= SEND_CAPACITY
    ensures var room := if c.closed then 0 else SEND_CAPACITY - |c.queue|;
            Offered(c, msg, n) == c.(queue := c.queue + seq(if n <= room then n else room, _ => msg))
  {
    if n == 0 {
      assert c.queue + [] == c.queue;
    } else {
      OfferedExact(c, msg, n - 1);
    }
  }

  lemma NoCopies(hubs: map<string, Hub>, msg: Message)
    ensures CopiesFor(hubs, [], msg) == hubs
  {
    forall g | g in hubs ensures CopiesFor(hubs, [], msg)[g] == hubs[g] {
    }
  }

  lemma OneMoreMention(c: ConnState, users: seq<string>, user: string, msg: Message)
    ensures CopiesOf(c, users + [user], msg) ==
            if user != "" && c.userID == user then Send(CopiesOf(c, users, msg), msg) else CopiesOf(c, users, msg)
  {
    assert multiset(users + [user])[c.userID] == multiset(users)[c.userID] + if c.userID == user then 1 else 0;
  }

  lemma OneMoreCopyAt(hubs: map<string, Hub>, users: seq<string>, user: string, msg: Message, g: string)
    requires g in hubs
    ensures CopiesFor(hubs, users + [user], msg)[g] ==
            if user == "" then CopiesFor(hubs, users, msg)[g]
            else T.DeliverToUser(CopiesFor(hubs, users, msg), user, msg)[g]
  {
    forall c | c in hubs[g]
      ensures CopiesOf(hubs[g][c], users + [user], msg) ==
              if user != "" && hubs[g][c].userID == user then Send(CopiesOf(hubs[g][c], users, msg), msg)
              else CopiesOf(hubs[g][c], users, msg)
    {
      OneMoreMention(hubs[g][c], users, user, msg);
    }
  }

  lemma OneMoreCopy(hubs: map<string, Hub>, users: seq<string>, user: string, msg: Message)
    ensures CopiesFor(hubs, users + [user], msg) ==
            if user == "" then CopiesFor(hubs, users, msg) else T.DeliverToUser(CopiesFor(hubs, users, msg), user, msg)
  {
    forall g | g in hubs
      ensures CopiesFor(hubs, users + [user], msg)[g] ==
              if user == "" then CopiesFor(hubs, users, msg)[g]
              else T.DeliverToUser(CopiesFor(hubs, users, msg), user, msg)[g]
    {
      OneMoreCopyAt(hubs, users, user, msg, g);
    }
  }

  /** The result of the i-th push: success with the number of the user's connections
      that could take the message then, or no success. */
  ghost predicate ReportsDelivery(hubs: map<string, Hub>, user: string, r: PushResult) {
    if user != "" && T.Reachable(hubs, user) != {} then
      r == PushResult(user, true, StatusSuccess, |T.Reachable(hubs, user)|, "")
    else
      r.status != StatusSuccess && r.connectionCount == 0
  }

  ghost predicate AllReport(hubs: map<string, Hub>, users: seq<string>, msg: Message, results: seq<PushResult>) {
    && |results| == |users|
    && forall i :: 0 <= i < |users| ==> ReportsDelivery(CopiesFor(hubs, users[..i], msg), users[i], results[i])
  }

  lemma OneMoreReport(hubs: map<string, Hub>, users: seq<string>, user: string, msg: Message,
      results: seq<PushResult>, r: PushResult)
    requires AllReport(hubs, users, msg, results) && ReportsDelivery(CopiesFor(hubs, users, msg), user, r)
    ensures AllReport(hubs, users + [user], msg, results + [r])
  {
    var users' := users + [user];
    assert users'[..|users|] == users;
    assert forall i :: 0 <= i < |users| ==> users'[..i] == users[..i];
  }

  lemma PushOne(f: Fleet, at: string, user: string, ids: seq<string>, msg: Message, lapsed: set<Place>)
    requires FleetOK(f, lapsed) && at in f.world.hubs && Enumerates(ids, Members(f.world.db, user))
    ensures var (w', r) := RouteUser(f.world, at, user, ids, msg);
            && FleetOK(f.(world := w'), lapsed)
            && w'.hubs == (if user == "" then f.world.hubs else T.DeliverToUser(f.world.hubs, user, msg))
            && ReportsDelivery(f.world.hubs, user, r)
  {
    PushUserKeeps(f, at, user, ids, msg, lapsed);
    if user != "" {
      F.OKAgrees(f, lapsed, user);
      T.ExactDelivery(f.world, at, user, ids, msg);
    }
  }

  /** A push to a list of users keeps the fleet healthy; every connection is offered
      one copy per mention of its user, nothing else is queued anywhere, and the i-th
      result reports the connections that took the i-th push. */
  ghost predicate Delivers(f: Fleet, at: string, users: seq<string>, orders: seq<seq<string>>, msg: Message,
      lapsed: set<Place>)
    requires at in f.world.hubs && Keyed(f.world.db) && |orders| == |users|
  {
    var (w', resp) := PushUsers(f.world, at, users, orders, msg);
    && FleetOK(f.(world := w'), lapsed)
    && w'.hubs == CopiesFor(f.world.hubs, users, msg)
    && AllReport(f.world.hubs, users, msg, resp.results)
  }

  lemma DeliversToOneMore(f: Fleet, at: string, users: seq<string>, orders: seq<seq<string>>, user: string,
      ids: seq<string>, msg: Message, lapsed: set<Place>)
    requires at in f.world.hubs && Keyed(f.world.db) && Answers(f.world, at, users, orders, msg)
    requires Delivers(f, at, users, orders, msg, lapsed)
    requires Enumerates(ids, Members(PushUsers(f.world, at, users, orders, msg).0.db, user))
    ensures Delivers(f, at, users + [user], orders + [ids], msg, lapsed)
  {
    NextUser(f.world, at, users, orders, user, ids, msg);
    var (w1, resp) := PushUsers(f.world, at, users, orders, msg);
    var r := RouteUser(w1, at, user, ids, msg).1;
    PushOne(f.(world := w1), at, user, ids, msg, lapsed);
    OneMoreCopy(f.world.hubs, users, user, msg);
    OneMoreReport(f.world.hubs, users, user, msg, resp.results, r);
  }

  /** That holds in any healthy state of the fleet. */
  lemma {:induction false} PushUsersDeliver(
      f: Fleet, at: string, users: seq<string>, orders: seq<seq<string>>, msg: Message, lapsed: set<Place>)
    requires FleetOK(f, lapsed) && at in f.world.hubs && Answers(f.world, at, users, orders, msg)
    ensures Delivers(f, at, users, orders, msg, lapsed)
  {
    if users == [] {
      NoCopies(f.world.hubs, msg);
    } else {
      var n := |users| - 1;
      AnswersPrefix(f.world, at, users, orders, msg);
      PushUsersDeliver(f, at, users[..n], orders[..n], msg, lapsed);
      DeliversToOneMore(f, at, users[..n], orders[..n], users[n], orders[n], msg, lapsed);
      FrontAndLast(users);
      FrontAndLast(orders);
    }
  }

  lemma FrontAndLast<T>(s: seq<T>)
    requires s != []
    ensures s[..|s| - 1] + [s[|s| - 1]] == s
  {
  }

  lemma AnswersPrefix(w: World, at: string, users: seq<string>, orders: seq<seq<string>>, msg: Message)
    requires at in w.hubs && Keyed(w.db) && Answers(w, at, users, orders, msg) && users != []
    ensures Answers(w, at, users[..|users| - 1], orders[..|users| - 1], msg)
    ensures Enumerates(orders[|users| - 1],
              Members(PushUsers(w, at, users[..|users| - 1], orders[..|users| - 1], msg).0.db, users[|users| - 1]))
  {
    var n := |users| - 1;
    assert AnswersAt(w, at, users, orders, msg, n);
    forall i | 0 <= i < n ensures AnswersAt(w, at, users[..n], orders[..n], msg, i) {
      assert AnswersAt(w, at, users, orders, msg, i);
      assert users[..n][..i] == users[..i] && orders[..n][..i] == orders[..i];
    }
  }

  /** At every moment of every run. */
  lemma PushDataReachesEveryone(states: seq<Fleet>, events: seq<Event>, k: nat,
      at: string, users: seq<string>, orders: seq<seq<string>>, msg: Message)
    requires F.IsTimedRun(states, events) && k < |states|
    requires at in states[k].world.hubs && Keyed(states[k].world.db)
    requires Answers(states[k].world, at, users, orders, msg)
    ensures var w := states[k].world;
            var (w', resp) := PushUsers(w, at, users, orders, msg);
            && w'.hubs == CopiesFor(w.hubs, users, msg)
            && AllReport(w.hubs, users, msg, resp.results)
  {
    F.RunKeeps(states, events, k);
    PushUsersDeliver(states[k], at, users, orders, msg, F.LapsedIn(states, events, k));
  }

  // ----- the online view -----

  /** The IDs of the user's open connections, anywhere in the fleet. */
  function OpenIds(hubs: map<string, Hub>, user: string): set<string> {
    set g, c | g in hubs && c in hubs[g] && hubs[g][c].userID == user && !hubs[g][c].closed :: c
  }

  lemma {:induction false} SubsetCount(a: set<string>, b: set<string>)
    requires a <= b
    ensures |a| <= |b|
  {
    if a != {} {
      var x :| x in a;
      SubsetCount(a - {x}, b - {x});
    }
  }

  /** At every moment of every run a user with open connections is seen online, with
      at least that many connections. */
  lemma ConnectedUsersAreOnline(states: seq<Fleet>, events: seq<Event>, k: nat, user: string, ids: seq<string>)
    requires F.IsTimedRun(states, events) && k < |states|
    requires user != "" && Enumerates(ids, Members(states[k].world.db, user))
    ensures var w := states[k].world;
            var status := StatusOf(user, S.ListByUser(w.db, user, ids).1);
            && |OpenIds(w.hubs, user)| <= status.connectionCount
            && (OpenIds(w.hubs, user) != {} ==> status.isOnline)
  {
    var w := states[k].world;
    F.RunKeeps(states, events, k);
    F.OKAgrees(states[k], F.LapsedIn(states, events, k), user);
    AgreedAreOnline(w, user, ids);
  }

  lemma AgreedAreOnline(w: World, user: string, ids: seq<string>)
    requires Quiet(w) && user != "" && T.Agree(w, user) && Enumerates(ids, Members(w.db, user))
    ensures var status := StatusOf(user, S.ListByUser(w.db, user, ids).1);
            && |OpenIds(w.hubs, user)| <= status.connectionCount
            && (OpenIds(w.hubs, user) != {} ==> status.isOnline)
  {
    var metas := LiveMetas(w.db, user, ids);
    ListQuiet(w.db, user, ids);
    LiveMetasExact(w.db, user, ids);
    CountDistinct(metas);
    T.IndexedAreListed(w.db, user, ids);
    forall c | c in OpenIds(w.hubs, user) ensures c in IDsOf(metas) {
      var g :| g in w.hubs && c in w.hubs[g] && w.hubs[g][c].userID == user && !w.hubs[g][c].closed;
      SeenCarriesItsKey(w.db, c);
    }
    SubsetCount(OpenIds(w.hubs, user), IDsOf(metas));
  }
}
