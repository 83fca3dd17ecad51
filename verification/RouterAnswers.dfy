/** What the callers of the router are told: the answer of a push to one connection by
    where the connection is, the result of a push to a user by what went wrong, and the
    consistency of every answer under any failures. */
module RouterAnswers {
  import opened RouteModel
  import opened Redis
  import opened FrontierModel
  import S = RouteSpec
  import opened RouteReads
  import opened RouterSpec
  import opened RouterDelivery
  import RouteFailures

  // ----- every answer is consistent -----

  /** Success is said with the success status, without an error, and only then; everything
      else but a stale route comes with a reason. */
  predicate Coherent(a: Answer) {
    && (a.resp.success <==> a.resp.status == StatusSuccess)
    && (a.resp.success ==> a.err == None && a.resp.error == "")
    && (a.err.Some? ==> a.err.value != "")
    && (!a.resp.success ==> a.resp.error != "")
    && a.resp.status in {StatusSuccess, StatusFailed, StaleCleaned}
  }

  /** Under any failures, here or at the end of any number of calls. */
  lemma {:induction false} RouteConnectionCoherent(w: World, at: string, id: string, msg: Message)
    requires at in w.hubs && Keyed(w.db)
    ensures Coherent(RouteConnection(w, at, id, msg))
    decreases Hops(w.db, at, id), 0
  {
    if id != "" && id !in w.hubs[at] {
      S.GetOnlyReads(w.db, id);
      var (db1, got) := S.GetMeta(w.db, id);
      match got
      case Err(e) => NotFoundText(id, e);
      case Ok(meta) =>
        if meta.gatewayAddr != at { PushRemoteCoherent(w.(db := db1), meta.gatewayAddr, id, msg); }
    }
  }

  lemma {:induction false} PushRemoteCoherent(w: World, addr: string, id: string, msg: Message)
    requires Keyed(w.db)
    ensures Coherent(PushRemote(w, addr, id, msg))
    decreases Hops(w.db, addr, id), 1
  {
    if addr in w.hubs && !NextLink(w).Unreachable? { RouteConnectionCoherent(ConsumeLink(w), addr, id, msg); }
  }

  lemma NotFoundText(id: string, e: Error)
    ensures "connection " + id + " not found: " + ErrorText(e) != ""
  {
    assert |"connection " + id + " not found: " + ErrorText(e)| > 0;
  }

  // ----- the answer by where the connection is -----

  /** Where a push that starts at a gateway finds the connection: in that gateway's hub or in
      the hub its route names, not where its route names, out of reach, or nowhere. */
  datatype Standing = Held(g: string) | Gone(g: string) | OutOfReach | Unknown

  function StandingOf(w: World, at: string, id: string): Standing
    requires at in w.hubs
  {
    if id in w.hubs[at] then Held(at)
    else match S.Seen(w.db, id)
      case None => Unknown
      case Some(meta) =>
        if meta.gatewayAddr !in w.hubs then OutOfReach
        else if id in w.hubs[meta.gatewayAddr] then Held(meta.gatewayAddr)
        else Gone(meta.gatewayAddr)
  }

  /** Without failures: a held connection with room takes the message and the caller is told
      so; a closed or full one is an error and takes nothing; a route to a gateway that lacks
      the connection is dropped and answered as stale, without error; a connection out of
      reach or known to no one is an error, and nothing changes. */
  lemma AnswerByStanding(w: World, at: string, id: string, msg: Message)
    requires Quiet(w) && at in w.hubs && id != ""
    requires S.Seen(w.db, id).Some? ==> S.Seen(w.db, id).value.userID != ""
    ensures var a := RouteConnection(w, at, id, msg);
            match StandingOf(w, at, id)
            case Held(g) =>
              && g in w.hubs && id in w.hubs[g]
              && (if Verdict(w.hubs[g][id]).Accepted? then
                    a.world == WorldSend(w, g, id, msg).0 && a.resp == Resp(true, StatusSuccess, "") && a.err == None
                  else
                    a.world == w && a.resp.status == StatusFailed && !a.resp.success && a.err.Some?)
            case Gone(g) =>
              && a.world == w.(db := DropRoutes(w.db, S.Seen(w.db, id).value.userID, {id}))
              && a.resp.status == StaleCleaned && !a.resp.success && a.err == None
            case OutOfReach => a.world == w && a.resp.status == StatusFailed && !a.resp.success && a.err.Some?
            case Unknown => a.world == w && a.resp.status == StaleCleaned && !a.resp.success && a.err.Some?
  {
    if id in w.hubs[at] {
      if !Verdict(w.hubs[at][id]).Accepted? { RejectedChangesNothing(w, at, id, msg); }
    } else {
      S.GetOnlyReads(w.db, id);
      if S.Seen(w.db, id).Some? {
        SeenCarriesItsKey(w.db, id);
        var meta := S.Seen(w.db, id).value;
        CleanupDrops(w.db, meta.userID, id);
        if meta.gatewayAddr in w.hubs && meta.gatewayAddr != at {
          AtItsGateway(w, meta, msg);
          RouteConnectionCoherent(w, meta.gatewayAddr, id, msg);
        }
      }
    }
  }

  /** A read that fails is answered like a missing connection, with an error, and cleans
      nothing; so is a push that names no connection, as a failure. */
  lemma UnreadableAnswers(w: World, at: string, id: string, msg: Message)
    requires at in w.hubs && Keyed(w.db) && id !in w.hubs[at]
    ensures var a := RouteConnection(w, at, id, msg);
            && (id == "" ==> a.world == w && a.resp.status == StatusFailed && a.err.Some?)
            && (id != "" && (!NextOutcome(w.db).Done? || S.Seen(w.db, id).None?) ==>
                && a.world == w.(db := Consume(w.db))
                && a.resp.status == StaleCleaned && !a.resp.success && a.err.Some?)
  {
    S.GetOnlyReads(w.db, id);
  }

  /** What a remote call makes of the remote gateway's answer, whatever fails: an error leaves
      no response; an unreachable gateway does nothing; a lost reply is an error and an empty
      one a failure, though the push was handled. */
  lemma RemoteAnswers(w: World, addr: string, id: string, msg: Message)
    requires Keyed(w.db)
    ensures var a := PushRemote(w, addr, id, msg);
            && (a.err.Some? ==> a.resp.status == StatusFailed && a.resp.error == a.err.value)
            && (addr !in w.hubs ==> a.world == w && a.err.Some? && a.visited == [])
            && (addr in w.hubs && NextLink(w) == Unreachable ==>
                a.world == ConsumeLink(w) && a.err.Some? && a.visited == [])
            && (addr in w.hubs && NextLink(w) != Unreachable ==>
                var there := RouteConnection(ConsumeLink(w), addr, id, msg);
                && a.world == there.world && a.visited == there.visited
                && (there.err.Some? ==> a.err == there.err)
                && (there.err == None && NextLink(w) == Answered ==> a.err == None && a.resp == there.resp)
                && (there.err == None && NextLink(w) == ReplyLost ==> a.err.Some?)
                && (there.err == None && NextLink(w) == EmptyReply ==>
                    a.err == None && a.resp.status == StatusFailed && !a.resp.success))
  {
  }

  lemma RejectedChangesNothing(w: World, g: string, id: string, msg: Message)
    requires g in w.hubs && id in w.hubs[g] && !Verdict(w.hubs[g][id]).Accepted?
    ensures WorldSend(w, g, id, msg).0 == w
  {
    assert w.hubs[g][id := w.hubs[g][id]] == w.hubs[g];
    assert w.hubs[g := w.hubs[g]] == w.hubs;
  }

  // ----- the result of a push to a user -----

  /** A route without ID is skipped. */
  lemma NamelessRouteIgnored(w: World, at: string, meta: ConnectionMeta, msg: Message, s: Summary)
    requires at in w.hubs && Keyed(w.db) && meta.connectionID == ""
    ensures RouteMeta(w, at, meta, msg, s) == (w, s)
  {
  }

  /** Any remote answer moves exactly one counter: an error or an unknown status the failures,
      each other status its own. Only a stale one touches the store. */
  lemma AnswerMovesOneCounter(a: Answer, meta: ConnectionMeta, s: Summary)
    ensures var (w', s') := FoldAnswer(a, meta, s);
            var status := if a.err.Some? then StatusFailed else a.resp.status;
            && s'.successCount == s.successCount + (if status == StatusSuccess then 1 else 0)
            && s'.staleCount == s.staleCount + (if status == StaleCleaned then 1 else 0)
            && s'.noopCount == s.noopCount + (if status == NoopOffline then 1 else 0)
            && s'.failCount == s.failCount + (if status in {StatusFailed, StatusUnknown} then 1 else 0)
            && (status != StaleCleaned ==> w' == a.world)
            && w'.hubs == a.world.hubs && w'.net == a.world.net
  {
  }

  /** A stale route is cleaned up by the gateway that pushes to the user, also when another one
      has found it stale: whatever became of that gateway's own cleanup, the route is gone if
      this one's commands succeed. */
  lemma StaleRouteIsCleanedHere(w: World, at: string, meta: ConnectionMeta, msg: Message, s: Summary)
    requires at in w.hubs && Keyed(w.db) && meta.connectionID != "" && meta.userID != ""
    requires var (w', s') := RouteMeta(w, at, meta, msg, s); s'.staleCount > s.staleCount
    requires meta.gatewayAddr == at ==> w.db.script == []
    requires meta.gatewayAddr != at ==>
               PushRemote(w, meta.gatewayAddr, meta.connectionID, msg).world.db.script == []
    ensures var db' := RouteMeta(w, at, meta, msg, s).0.db;
            meta.connectionID !in db'.facts && meta.connectionID !in Members(db', meta.userID)
  {
    if meta.gatewayAddr == at {
      CleanupExact(w.db, meta.userID, meta.connectionID);
    } else {
      var a := PushRemote(w, meta.gatewayAddr, meta.connectionID, msg);
      CleanupExact(a.world.db, meta.userID, meta.connectionID);
    }
  }

  /** A route adds a failure only with its reason, and keeps an earlier one. */
  lemma RouteMetaReasons(w: World, at: string, meta: ConnectionMeta, msg: Message, s: Summary)
    requires at in w.hubs && Keyed(w.db)
    ensures var s' := RouteMeta(w, at, meta, msg, s).1;
            && (s.firstError != "" ==> s'.firstError == s.firstError)
            && (s'.failCount > s.failCount ==> s'.firstError != "")
            && s'.failCount >= s.failCount
  {
    if meta.connectionID != "" && meta.gatewayAddr != at {
      PushRemoteCoherent(w, meta.gatewayAddr, meta.connectionID, msg);
    }
  }

  lemma {:induction false} FailuresHaveReasons(w: World, at: string, metas: seq<ConnectionMeta>, msg: Message)
    requires at in w.hubs && Keyed(w.db)
    ensures var s := RouteAll(w, at, metas, msg).1; s.failCount > 0 ==> s.firstError != ""
  {
    if metas != [] {
      var n := |metas| - 1;
      FailuresHaveReasons(w, at, metas[..n], msg);
      var (w1, s1) := RouteAll(w, at, metas[..n], msg);
      RouteMetaReasons(w1, at, metas[n], msg, s1);
    }
  }

  /** The reason reported is that of the first route that failed. */
  lemma {:induction false} FirstReasonStays(w: World, at: string, metas: seq<ConnectionMeta>, msg: Message, k: nat)
    requires at in w.hubs && Keyed(w.db) && k <= |metas|
    requires RouteAll(w, at, metas[..k], msg).1.failCount > 0
    ensures RouteAll(w, at, metas, msg).1.firstError == RouteAll(w, at, metas[..k], msg).1.firstError
    decreases |metas|
  {
    if k == |metas| {
      assert metas[..k] == metas;
    } else {
      var n := |metas| - 1;
      assert metas[..n][..k] == metas[..k];
      FirstReasonStays(w, at, metas[..n], msg, k);
      FailuresHaveReasons(w, at, metas[..k], msg);
      var (w1, s1) := RouteAll(w, at, metas[..n], msg);
      RouteMetaReasons(w1, at, metas[n], msg, s1);
    }
  }

  /** Under any failures: the result names the user; it is no success iff its status is
      FAILED, and then it says why; it counts connections iff its status is SUCCESS. */
  lemma RouteUserCoherent(w: World, at: string, user: string, ids: seq<string>, msg: Message)
    requires at in w.hubs && Keyed(w.db)
    ensures var r := RouteUser(w, at, user, ids, msg).1;
            && r.userID == user
            && (!r.success <==> r.status == StatusFailed)
            && (r.error != "" <==> r.status == StatusFailed)
            && (r.connectionCount > 0 <==> r.status == StatusSuccess) && r.connectionCount >= 0
            && r.status != StatusUnknown
  {
    if user != "" {
      var (db1, listed) := S.ListByUser(w.db, user, ids);
      ListStaysKeyed(w.db, user, ids);
      if listed.Ok? { FailuresHaveReasons(w.(db := db1), at, listed.value, msg); }
    }
  }

  /** A push to no one, or one whose listing fails, reports FAILED and queues nothing. */
  lemma RouteUserRefuses(w: World, at: string, user: string, ids: seq<string>, msg: Message)
    requires at in w.hubs && Keyed(w.db) && Enumerates(ids, Members(w.db, user))
    requires user == "" || RouteFailures.ListingFails(w.db, user)
    ensures var (w', r) := RouteUser(w, at, user, ids, msg);
            && r.status == StatusFailed && !r.success && r.connectionCount == 0 && r.error != ""
            && w'.hubs == w.hubs && w'.db.facts == w.db.facts && (user == "" ==> w' == w)
  {
    RouteFailures.ListingFailsIff(w.db, user, ids);
    if user != "" { S.ListKeepsFacts(w.db, user, ids); }
  }

  /** What a hub answers about a send: it took the message, it does not have the connection
      or the connection is closed, or 256 messages are waiting already. */
  lemma HubSendAnswers(hub: Hub, id: string, msg: Message)
    ensures var (hub', r) := HubSend(hub, id, msg);
            && (r == Accepted <==> id in hub && !hub[id].closed && |hub[id].queue| < 256)
            && (r == ConnectionClosed <==> id !in hub || hub[id].closed)
            && (r == SendBufferFull <==> id in hub && !hub[id].closed && |hub[id].queue| >= 256)
            && (r != Accepted ==> hub' == hub)
            && (r == Accepted ==> hub' == hub[id := hub[id].(queue := hub[id].queue + [msg])])
  {
    if id in hub { assert hub[id := hub[id]] == hub; }
  }

  /** A broadcast says success, counts nothing and names no user. */
  lemma BroadcastAnswers(w: World, at: string, msg: Message)
    requires at in w.hubs
    ensures var r := RouteBroadcast(w, at, msg).1;
            r.success && r.status == StatusSuccess && r.connectionCount == 0 && r.userID == "" && r.error == ""
  {
  }
}
