# Verification model of the long-connection service

Gateways keep live WebSocket connections in a hub and share one Redis route store:
a fact per connection and an index set per user. A push router on each gateway finds
a user's connections through the store and reaches those of other gateways by calling
them. This project models those layers and proves what they promise together.

| files | content |
|---|---|
| `RouteModel`, `Redis`, `RouteSpec`, `RouteStore` | records, Redis with a clock, expiry and failing commands, and the store: a class over a shared client, each method equal to a function of the database |
| `RouteReads`, `RouteRuns`, `RouteFailures` | readers against a scan of all facts; runs of operations over time; every failure pattern |
| `RouteProtocol`, `RouteRaces` | any number of operations in flight, one Redis command per step; pushes against connections that come and go, one lookup or command per step |
| `FrontierModel`, `SendProtocol`, `HubSpec`, `Frontier` | connections and hubs as objects, the close/send protocol over its atomic actions, the twin maps over runs |
| `RouterSpec`, `RouterAnswers`, `RouterSafety`, `RouterAccounting`, `RouterDelivery`, `RouterTheorems`, `Push` | the router as functions of the whole fleet and as objects that call each other; what callers are told; safety and honest reports under failures; exact delivery |
| `FleetRuns`, `FleetInvariant`, `FleetTheorems`, `FleetActivity`, `FleetExpiry` | timed runs of whole fleets: connects, activity, sweeps, closes, unregistrations, pushes, broadcasts; the exact condition on their settings; when connections close and how long routes live |
| `BackbonSpec`, `Backbon`, `BackbonTheorems` | pushes to many users, the online view |
| `ServiceRegistry` | service registrations and their two lookups |

Check everything with `dafny verify dfyconfig.toml`.

## How it is built

- Every class method is proved equal to a function of the state before it, and the
  theorems are about those functions. The events of the timed runs are the effects of the
  hub's, the connection's and the router's methods (`Joined`, `Touched`, `Departed`,
  `SweepHub`, `Close`, `Receive`, `RouteUser`, ...); the order in which threads take them
  is not taken from any method.
- A database carries the outcomes of its next commands: done, refused without effect, or
  done with the reply lost. The empty list is a Redis that does not fail. Remote calls
  have outcomes of the same kind. Theorems that do not require an empty list hold for
  every failure pattern.
- The order in which Redis lists a set is arbitrary; a method returns it as a ghost result.
- A remote call is a call of the router registered under that address; a handler's error
  loses its response, as the generated server does.

## What the code relies on

- **Records carry their own key** (`Keyed`). Every store operation keeps this under all
  failures (`ExecStaysKeyed`). Routing needs it: without it a live route can be deleted
  (`MislabelledRecordCleansLive`; `LocalRoutingSafeIff` has the exact condition for local
  routes) and two gateways could forward to each other forever
  (`MislabelledRecordsForwardForever`).
- **Connection IDs are fresh and not blank** (they are UUIDs). A reused ID breaks the hub's
  counters (`RegisterConsistentIff`); a blank ID is never listed.
- **A cleanup of an ID does not overlap or precede its writes, and names its owner.**
  Otherwise a refresh resurrects the route, or a registration leaves a dangling entry (the
  two `Across` lemmas of `RouteProtocol`). Then a completed cleanup is final
  (`CleanupIsFinal`).
- **A push to one connection starts after the connection has joined.** An earlier one can
  delete the new route (`EarlyPushLosesRoute`); pushes to users need no such rule.
- **TTLs of different gateways.** Open connections stay routable iff each route TTL is at
  least its gateway's timeout plus interval, which the hub's constructor guarantees, and
  twice each route TTL is at least the timeout plus interval of every other gateway
  (`RouteTtlIff`). That the index outlives every fact, also those of connections that are
  gone, needs TTLs within a factor of two of each other (`IndexOutlivesFactsIff`).
- A gateway's own address is not empty, all gateways read one clock, and in the timed runs
  each gateway sweeps at least once per heartbeat interval and activity updates the
  connection and its route in one step.

## What turned out not to hold

- A refresh can delete the live route it was to renew: when indexing fails, the rollback
  removes the old fact with the new one. `RefreshLosesRouteIff` says exactly when.
- CheckUserOnline reports a connected user offline when one of the listing's reads fails,
  where a push at the same state reports FAILED (`ConnectedUserReadsOffline`). The two
  agree iff none of them fails (`OnlineAgreesWithRoutingIff`).
- The interface (`long_connection_service/idl/backbon_service.proto:41`) documents a broadcast
  as one to all connections. It reports success whatever the queues say and reaches one
  gateway only (`BroadcastSkipsFullQueue`, `BroadcastMissesOtherGateways`);
  `BroadcastReachesEveryoneIff` says exactly when it reaches everyone.
- A push to one connection can delete the route of a connection that is just registering
  (`EarlyPushLosesRoute`).
- The repository's own description has pushes and the online check read the hub; the code
  reads the route store. The model follows the code.

## Model

| member | source | states |
|---|---|---|
| RouteStore.RedisStore.constructor | long_connection_service/src/route/redis_store.go:24-34 | a non-positive TTL becomes two minutes; the gateway address is also its ID |
| RouteStore.RedisStore.Get | long_connection_service/src/route/redis_store.go:82-103 | missing, expired and address-less records are one answer (missing), a failing Redis another; nothing changes |
| RouteStore.RedisStore.Register | long_connection_service/src/route/redis_store.go:36-57 | the fact is written before the index entry and taken back when indexing fails, for every pattern of refused and lost commands; the same new state and error as the function of the database whose runs `RouteRuns` and `RouteFailures` study |
| RouteStore.RedisStore.IndexConnection | long_connection_service/src/route/redis_store.go:224-233 | the entry is added and the set lives for twice the route TTL; a failing expiry is not reported |
| RouteStore.RedisStore.Refresh | long_connection_service/src/route/redis_store.go:59-76 | read, owner check, then the writes of a registration, for every failure pattern |
| RouteStore.RedisStore.ListByUser | long_connection_service/src/route/redis_store.go:105-156 | for every order Redis may list the set in: returned routes, removed stale entries and the abort on a failing read |
| RouteStore.RedisStore.Cleanup | long_connection_service/src/route/redis_store.go:158-176 | index entry first, then the fact; stops at a failing first command |
| RouteStore.RedisStore.CleanupStale | long_connection_service/src/route/redis_store.go:178-200 | a read error counts as stale; the answer counts what it tried to remove |
| RouteReads.ListQuiet | long_connection_service/src/route/redis_store.go:105-156 | without failures a listing returns exactly the readable facts the user owns among the indexed ones and removes exactly the non-blank indexed IDs that are not such |
| RouteReads.LiveMetasExact | long_connection_service/src/route/redis_store.go:122-142 | membership of the listed records in both directions, one per connection |
| RouteReads.CleanupStaleExact | long_connection_service/src/route/redis_store.go:178-200 | from any index: no fact changes, exactly the IDs whose live fact belongs to the user stay, other users are untouched, the count is the number removed |
| RouteReads.CleanupStaleTwice | long_connection_service/src/route/redis_store.go:178-200 | a repeated sweep removes nothing, changes nothing and answers 0 |
| RouteReads.CleanupExact | long_connection_service/src/route/redis_store.go:158-176 | removes one fact and one entry, leaves everything else; idempotent |
| RouteRuns.IndexRefinesScan | long_connection_service/src/route/redis_store.go:105-156 | after any run of store operations by any gateways, with time passing between them, ListByUser answers exactly like a scan of all unexpired facts; no live connections iff there are none |
| RouteRuns.RunKeeps | long_connection_service/src/route/redis_store.go:36-200 | every run keeps each readable fact in its owner's set, which expires no earlier |
| RouteRuns.IndexOutlivesFactsIff | long_connection_service/src/route/redis_store.go:216-233 | in all runs the index outlives the facts it lists, if and only if no store's TTL exceeds twice another's |
| RouteRuns.ShortIndexLosesRoute | long_connection_service/src/route/redis_store.go:224-233 | two stores outside that bound have a run that shortens the set below a live fact |
| RouteFailures.RegisterFacts | long_connection_service/src/route/redis_store.go:36-57 | under any failures a registration leaves every other fact alone and its own as it was, stored or removed |
| RouteFailures.RegisterReportsTruth | long_connection_service/src/route/redis_store.go:36-57 | a registration that reports success left its route readable and indexed, even when setting the expiry failed |
| RouteFailures.RegisterAnswers | long_connection_service/src/route/redis_store.go:36-57 | under any failures a registration reports success iff it names user and connection and both writes do, whatever the expiry does; a missing ID is an invalid argument and changes nothing, all else a Redis error |
| RouteFailures.SetLivesOn | long_connection_service/src/route/redis_store.go:224-233 | after a success the set has the new member and lives for twice the TTL, or, when the expiry is refused, as long as it did, a new one without end |
| RouteFailures.RegisterStoresRecord | long_connection_service/src/route/redis_store.go:209-214 | what becomes readable is the record given, field by field, a missing gateway filled in from the store, stamped with the time of the call; without any gateway address nothing is readable |
| RouteFailures.RegisterVisibleIff | long_connection_service/src/route/redis_store.go:43-55 | a re-registration removes a readable route iff its second write fails and its rollback is not refused |
| RouteFailures.RefreshLosesRouteIff | long_connection_service/src/route/redis_store.go:59-76 | a refresh of a live route deletes it iff the read and the first write succeed, the second write fails and the rollback takes effect |
| RouteFailures.RefreshCreatesNothing | long_connection_service/src/route/redis_store.go:59-76 | under any failures a refresh never makes a record readable that was not readable before |
| RouteFailures.CleanupRetryCompletes | long_connection_service/src/route/redis_store.go:165-173 | wherever a cleanup was interrupted, a retry ends where an uninterrupted one would have |
| RouteFailures.CleanupAnswers | long_connection_service/src/route/redis_store.go:158-176 | under any failures a cleanup reports success iff its commands do, or there is no ID; then fact and entry are gone |
| RouteFailures.CleanupStaleAnswers | long_connection_service/src/route/redis_store.go:178-200 | under any failures a sweep counts exactly the IDs it cannot read as the user's, failed reads included, takes them out if it succeeds, and fails iff the listing or a needed removal does |
| RouteFailures.ExecStaysKeyed | long_connection_service/src/route/redis_store.go:36-200 | every operation, under any failures, keeps each record under its own ID |
| RouteFailures.RefreshExact | long_connection_service/src/route/redis_store.go:59-76 | a refresh succeeds iff the record is unexpired and the caller names its user or none; then it renews that record, changes only its activity time and re-indexes it |
| RouteFailures.RefreshAnswers | long_connection_service/src/route/redis_store.go:59-76 | under any failures a refresh reports a missing route, a wrong owner, an invalid record or success exactly when it is so |
| RouteFailures.RunKeepsIdentity | long_connection_service/src/route/model.go:26-32 | over any run that neither re-registers nor cleans the ID, user, gateway and login time stay and the activity time never goes back |
| RouteProtocol.SoloWrites | long_connection_service/src/route/redis_store.go:44-52 | the single-command steps of a registration and of a cleanup, run alone, are the whole operations |
| RouteProtocol.SoloRefresh | long_connection_service/src/route/redis_store.go:59-76 | the single-command steps of a refresh, run alone, are a refresh |
| RouteProtocol.SoloList | long_connection_service/src/route/redis_store.go:105-156 | the single-command steps of a listing, run alone, leave the store a listing leaves |
| RouteProtocol.SoloSweep | long_connection_service/src/route/redis_store.go:178-200 | the same for a sweep |
| RouteProtocol.StepKeeps | long_connection_service/src/route/redis_store.go:36-200 | every single command of every operation in flight keeps the invariant of the interleavings |
| RouteProtocol.EveryInterleavingIsConsistent | long_connection_service/src/route/redis_store.go:44-52 | in every interleaving of any number of operations each indexed ID has a fact of that user, and each fact no operation is writing or cleaning is indexed |
| RouteProtocol.ReadersNeverDropLiveRoutes | long_connection_service/src/route/redis_store.go:122-150 | in every interleaving no command of a listing or a sweep drops the entry of a live fact |
| RouteProtocol.RefreshAcrossCleanupResurrects | long_connection_service/src/route/redis_store.go:59-76 | a cleanup inside a refresh is undone by it, for every live route: why the interleavings exclude it |
| RouteProtocol.RegisterAcrossCleanupDangles | long_connection_service/src/route/redis_store.go:44-52 | a cleanup inside a registration leaves an entry without fact, for every registration |
| RouteProtocol.CleanupIsFinal | long_connection_service/src/route/redis_store.go:158-176 | in every interleaving, once a cleanup of an ID has begun and none is in flight, the ID has no fact, is in no set, and nothing brings the fact back |
| RouteRaces.PushesLoseNoRoute | long_connection_service/src/push/router.go:52-164 | in every interleaving of connections that come and go with pushes to users and to connections that have joined, no connection in a hub loses its route and cleanups hit only connections that have left |
| RouteRaces.StepKeeps | long_connection_service/src/push/router.go:82-164 | every hub lookup and every Redis command of those pushes, registrations and unregistrations keeps the invariant behind it |
| RouteRaces.EarlyPushLosesRoute | long_connection_service/src/push/router.go:87-105 | for every gateway and connection: a push that looks for it before it joins and reads the store after its registration deletes the route of the live connection |
| Frontier.Connection.SendMessage | long_connection_service/src/frontier/connection.go:133-153 | never blocks; closed and full are reported, an accepted message is last in the queue |
| Frontier.Connection.Close | long_connection_service/src/frontier/connection.go:163-174 | closes the queue and reports to the hub once, however often it is called |
| SendProtocol.StepKeeps | long_connection_service/src/frontier/connection.go:133-174 | every action on the lock, the flag, the once guard and the channel keeps the protocol invariant |
| SendProtocol.CloseSendSafe | long_connection_service/src/frontier/connection.go:133-174 | in every interleaving of any senders and closers: no send on a closed channel, no second close, never more than 256 queued, nothing accepted after the flag is set |
| SendProtocol.FifoConservation | long_connection_service/src/frontier/connection.go:95-153 | at every step dequeued messages followed by the queue are the accepted ones in order; frames written are a prefix of the dequeued, at most one behind |
| SendProtocol.PumpDrainsBeforeStopping | long_connection_service/src/frontier/connection.go:95-130 | the pump is told that the channel is closed only when it is empty and every accepted message has been written; a failing write or ping may stop it before |
| SendProtocol.OneCloser | long_connection_service/src/frontier/connection.go:163-174 | no two closers are ever inside the once guard |
| SendProtocol.SoloSend | long_connection_service/src/frontier/connection.go:133-153 | a send that runs alone is the sequential one |
| Frontier.Hub.constructor | long_connection_service/src/frontier/hub.go:70-121 | defaults for non-positive settings and the route TTL derived from them |
| FleetRuns.NewGateway | long_connection_service/src/frontier/hub.go:84-97 | 90 and 30 seconds unless configured; the route TTL is their sum, or one minute when that is longer |
| FleetRuns.RouteTtl | long_connection_service/src/frontier/hub.go:94-97 | the route TTL is timeout plus interval, or one minute when that is longer |
| FleetExpiry.RouteLivesExactly | long_connection_service/src/route/redis_store.go:216-222 | in every run a route nobody drops is readable exactly until timeout plus interval, a minute at least, after the last write of its gateway |
| FleetExpiry.AbandonedRouteExpires | long_connection_service/src/frontier/hub.go:94-97 | in every run, whatever other events do, a route is unreadable once that time has passed since its last write |
| FleetExpiry.SilentUserGoesOffline | long_connection_service/src/backbon/service/check_user_online.go:30-51 | in every run of configured gateways a user whose remaining routes nobody writes has none left after the longest of those times |
| Frontier.Hub.RegisterConnection | long_connection_service/src/frontier/hub.go:160-183 | both maps, both counters and the stored route after a registration; the maps keep sharing one object per new ID |
| Frontier.Hub.UnregisterConnection | long_connection_service/src/frontier/hub.go:186-219 | the registered entry is taken from both maps, the counter saturates at zero, its route is cleaned; unknown IDs change nothing |
| Frontier.Hub.RegistrationReadsBack | long_connection_service/src/frontier/hub.go:248-260 | what every gateway reads after a successful registration is the connection's user, ID, device, platform, client version and login time, each under its own name, and this gateway's address |
| Frontier.Hub.NoteActivity | long_connection_service/src/frontier/connection.go:80-85 | an activity touches the connection and refreshes its route, with the effect of the fleet's activity event |
| Frontier.Connection.Receive | long_connection_service/src/frontier/connection.go:102-104 | the pump takes the oldest message |
| Frontier.Hub.GetUserConnections | long_connection_service/src/frontier/hub.go:281-295 | exactly the indexed connections of the user, each once |
| Frontier.Hub.SendToConnection | long_connection_service/src/frontier/hub.go:318-329 | one connection is offered the message, no other queue changes |
| Frontier.Hub.SendToUser | long_connection_service/src/frontier/hub.go:298-315 | one copy offered to each connection indexed under the user, and, when the two maps agree, to each of the user's connections and no other; the answer says whether there is any |
| Frontier.Hub.Broadcast | long_connection_service/src/frontier/hub.go:332-347 | one copy offered to every connection of the hub |
| Frontier.Hub.CheckHeartbeat | long_connection_service/src/frontier/hub.go:399-424 | exactly the idle connections are closed and each newly closed one is queued for unregistration |
| HubSpec.RegisterConsistentIff | long_connection_service/src/frontier/hub.go:160-183 | a registration keeps maps and counters consistent iff the ID is new: a reused ID is counted twice |
| HubSpec.HubRunConsistent | long_connection_service/src/frontier/hub.go:160-219 | over any run with fresh IDs the index is the partition of the connections by non-empty user with no empty entry; active counts connections, total the arrivals, and they differ by the effective departures |
| HubSpec.UnregisterTwice | long_connection_service/src/frontier/hub.go:186-219 | a repeated unregistration changes nothing |
| RouterSpec.Summary.ToPushResult | long_connection_service/src/push/result.go:33-44 | SUCCESS iff a route succeeded; FAILED iff none did and one failed; STALE_CLEANED iff neither and one was stale; NOOP_OFFLINE iff none of the three; success iff not FAILED, and the count is that of the successes |
| Push.Router.PushRemote | long_connection_service/src/push/router.go:176-195 | an unknown gateway, a failed call, a lost reply and a handler's error all reach the caller as an error without response; an empty reply is a failed answer without error |
| Push.Router.RouteConnection | long_connection_service/src/push/router.go:82-107 | the whole fleet after a push to one connection, across gateways that call each other; the recursion terminates |
| Push.Router.RouteLocalConnection | long_connection_service/src/push/router.go:121-139 | delivery through this hub or cleanup of the stale route, and the counter that records it |
| Push.Router.RouteRemoteConnection | long_connection_service/src/push/router.go:141-164 | the counter each remote answer moves and the cleanup only a stale verdict causes |
| Push.Router.RouteConnectionMeta | long_connection_service/src/push/router.go:109-119 | a route without ID is skipped; the address decides between this hub and a call |
| Push.Router.RouteUser | long_connection_service/src/push/router.go:52-80 | the whole fleet and the result after a push to a user, for any order the routes are listed in |
| Push.Router.Broadcast | long_connection_service/src/push/router.go:44-50 | only this gateway's queues change; always reports success |
| RouterSafety.RouteUserNeverCleansLive | long_connection_service/src/push/router.go:61-80 | for any store of keyed records, any Redis failures and any lost calls: a route is deleted only if the gateway it names lacks the connection |
| RouterSafety.RouteConnectionNeverCleansLive | long_connection_service/src/push/router.go:101-105 | the same for a push to one connection |
| RouterSafety.PushRemotePrunes | long_connection_service/src/push/router.go:148-155 | a stale verdict that comes back from another gateway is true |
| RouterSafety.MislabelledRecordCleansLive | long_connection_service/src/push/router.go:121-131 | a record stored under an ID it does not carry makes that promise fail |
| RouterSafety.LocalRoutingSafeIff | long_connection_service/src/push/router.go:121-131 | for every store without failures: the routing of records to their own gateway never cleans a live route, whatever the hubs hold, if and only if records naming the same connection name the same gateway |
| RouterSafety.MislabelledRecordsForwardForever | long_connection_service/src/push/router.go:82-107 | with two records that name each other, two gateways that lack both connections forward to each other without end |
| RouterSafety.BoundedForwarding | long_connection_service/src/push/router.go:82-107 | a push is handled here and by at most one other gateway, the one the route names |
| RouterSafety.LastStop | long_connection_service/src/backbon/service/push_to_connection.go:12-37 | the gateway a route names never forwards |
| RouterDelivery.RouteAllQuiet | long_connection_service/src/push/router.go:72-76 | without failures the loop over a user's routes is one order-free update: copies to the listed places, stale routes dropped, each counter the number of routes with that fate |
| RouterDelivery.AtItsGateway | long_connection_service/src/push/router.go:82-107 | asking the gateway a route names delivers, refuses or drops the route according to that hub |
| RouterTheorems.OrderIndependence | long_connection_service/src/push/router.go:72-76 | any two orders and any two gateways give the same queues, store, status, success and count; only the error text may differ |
| RouterTheorems.ExactDelivery | long_connection_service/src/push/router.go:52-80 | one copy on each of the user's connections whose queue is open and not full, on any gateway, nothing elsewhere; success iff there is one, with their number |
| RouterTheorems.PushConverges | long_connection_service/src/push/router.go:121-164 | after a push the user's remaining routes are exactly those not proved stale by the gateway they name |
| RouterTheorems.StaleCleanedThenOffline | long_connection_service/src/push/result.go:33-44 | after STALE_CLEANED an immediate second push from any gateway answers NOOP_OFFLINE |
| RouterTheorems.BroadcastReachesEveryoneIff | long_connection_service/src/push/router.go:44-50 | a broadcast always reports success; every connection of the fleet gets one copy if and only if the serving gateway has all of them and none is closed or full |
| RouterTheorems.BroadcastMissesOtherGateways | long_connection_service/src/push/router.go:44-50 | a connection on a second gateway gets nothing and success is reported |
| RouterTheorems.BroadcastSkipsFullQueue | long_connection_service/src/push/router.go:44-50 | a connection with a full queue gets nothing and success is reported |
| RouterAccounting.NoFalseNorDoubleDelivery | long_connection_service/src/push/router.go:52-80 | under any Redis failures, unreachable gateways and lost replies: at most one copy per connection ID, only on connections whose route is the user's, and never more deliveries reported than copies queued |
| RouterAccounting.RouteConnectionOnce | long_connection_service/src/push/router.go:82-107 | under any failures a push to one connection queues at most one copy in the whole fleet, and a success without error means exactly one |
| RouterAccounting.ScanDistinct | long_connection_service/src/route/redis_store.go:122-142 | under any failures a listing never returns an ID twice |
| RouterAnswers.RouteConnectionCoherent | long_connection_service/src/push/router.go:82-107 | under any failures, over any number of calls: success is said iff the status is SUCCESS, then without error, and every other answer has a reason |
| RouterAnswers.AnswerByStanding | long_connection_service/src/push/router.go:82-107 | without failures, by where the connection is: held with room is queued and told so, closed or full is an error, gone is cleaned up and answered as stale, out of reach or unknown is an error that changes nothing |
| RouterAnswers.UnreadableAnswers | long_connection_service/src/push/router.go:96-99 | a failing read is answered like a missing connection, with an error, and cleans nothing |
| RouterAnswers.RemoteAnswers | long_connection_service/src/push/router.go:176-195 | what each outcome of a remote call makes of the remote answer: an error leaves no response, an unreachable gateway does nothing, a lost reply is an error, an empty one a failure |
| RouterAnswers.StaleRouteIsCleanedHere | long_connection_service/src/push/router.go:148-155 | the gateway that pushes to the user cleans a stale route itself, also after a remote verdict: the route is gone if its own commands succeed |
| RouterAnswers.AnswerMovesOneCounter | long_connection_service/src/push/router.go:141-164 | any remote answer moves exactly the counter of its status, an error the failures, and only a stale one touches the store |
| RouterAnswers.FirstReasonStays | long_connection_service/src/push/result.go:26-31 | under any failures the reason reported is that of the first route that failed |
| RouterAnswers.RouteUserCoherent | long_connection_service/src/push/router.go:52-80 | under any failures: no success iff FAILED, a reason iff FAILED, a count iff SUCCESS, and the user's own ID |
| RouterAnswers.RouteUserRefuses | long_connection_service/src/push/router.go:53-70 | a push to no user, or one whose listing fails, reports FAILED with a reason and queues nothing |
| RouterAnswers.HubSendAnswers | long_connection_service/src/frontier/hub.go:318-329 | accepted iff held, open and fewer than 256 wait; closed iff not held or closed; full otherwise; the queue changes iff accepted |
| RouterAnswers.BroadcastAnswers | long_connection_service/src/push/router.go:44-50 | success with status SUCCESS, no count, no user and no error |
| FleetInvariant.StepKeeps | long_connection_service/src/frontier/hub.go:160-424 | every event of a fleet without Redis failures keeps the routes of all connections that are open, or closed and within their time |
| FleetInvariant.SweepKeeps | long_connection_service/src/frontier/hub.go:399-424 | a connection that survives a sweep has a route that outlives the next one |
| FleetTheorems.OpenConnectionsStayRoutable | long_connection_service/src/frontier/hub.go:94-97 | at every moment of every run each open authenticated connection has an unexpired fact naming its gateway and an entry in its user's unexpired set |
| FleetTheorems.ClosedConnectionsStayRoutable | long_connection_service/src/frontier/hub.go:186-219 | so has each closed connection still waiting in its hub, until it has been idle for timeout plus interval, unless it was touched after that |
| FleetActivity.UntouchedConnection | long_connection_service/src/frontier/hub.go:399-424 | in every run a connection no event is about stays in its hub as it was, and is closed iff it was or a sweep found it idle for the timeout |
| FleetActivity.ActiveStaysOpen | long_connection_service/src/frontier/connection.go:177-181 | in every run a sweep never closes a connection less than the timeout after an activity |
| FleetActivity.NobodyLeavesStoreAlone | long_connection_service/src/frontier/hub.go:221-246 | registering, touching and unregistering a connection without user, or an unknown one, leaves the store as it is |
| FleetActivity.UnregisterCleans | long_connection_service/src/frontier/hub.go:186-219 | without failures an unregistration leaves neither record nor entry and keeps every other record |
| FleetActivity.ConnectRoutes | long_connection_service/src/frontier/hub.go:160-183 | without failures a connection with a user has a readable route to its gateway from its registration on, one without user has none |
| FleetTheorems.RouteTtlIff | long_connection_service/src/frontier/hub.go:94-97 | for any number of gateways: open connections are routable at every moment of every run, if and only if each route TTL covers its gateway's timeout plus heartbeat interval and twice each TTL covers that of every gateway |
| FleetTheorems.ShortTtlLosesRoute | long_connection_service/src/frontier/connection.go:224-226 | with a shorter TTL at any one gateway there is a run that leaves an open connection without fact |
| FleetTheorems.ShortIndexLosesRoute | long_connection_service/src/route/redis_store.go:224-233 | when another gateway renews the set for too short a time there is a run that leaves an open connection without entry |
| FleetTheorems.PushReachesEveryOpenConnection | long_connection_service/src/push/router.go:52-80 | at every moment of every run a push from any gateway reaches exactly the user's open, non-full connections |
| Backbon.Service.ValidatePushRequest | long_connection_service/src/backbon/service/push_data.go:37-63 | refuses exactly the requests without body, message or recipients, with one failed result, and touches nothing else |
| BackbonSpec.RefusalIff | long_connection_service/src/backbon/service/push_data.go:37-63 | a push is served iff it has a message and is a broadcast or names users; each reason is given exactly when it applies |
| BackbonSpec.ConnectionRefusalIff | long_connection_service/src/backbon/service/push_to_connection.go:12-33 | a push to a connection is served iff it has a connection ID and a message; each reason is given exactly when it applies |
| BackbonSpec.StatusCoherent | long_connection_service/src/backbon/service/check_user_online.go:30-61 | for any listing: online iff connections are counted, and an offline user has no activity |
| Backbon.Service.PushData | long_connection_service/src/backbon/service/push_data.go:12-35 | refused requests change nothing; a broadcast stays on this gateway; otherwise the users are served in order |
| Backbon.Service.CheckUserOnline | long_connection_service/src/backbon/service/check_user_online.go:12-28 | one status per non-empty ID, in order, from the store as it is at that point |
| Backbon.Service.CheckUserOnlineStatus | long_connection_service/src/backbon/service/check_user_online.go:30-51 | every error reads as offline; the loop's maximum of the activity times |
| Backbon.Service.PushToConnection | long_connection_service/src/backbon/service/push_to_connection.go:12-37 | requests without body, ID or message are refused and change nothing; any other is routed from this gateway |
| Backbon.PushResponse.Append | long_connection_service/src/backbon/service/push_data.go:65-75 | the result is last in the list and exactly one of the two counters moves |
| BackbonSpec.NeverOfflineHere | long_connection_service/src/push/router.go:82-107 | a push to one connection is never answered with NOOP_OFFLINE |
| BackbonSpec.PushTalliesAddUp | long_connection_service/src/backbon/service/push_data.go:65-75 | under any failures: one result per user in order, success plus failure counts are the number of results and count the successes |
| BackbonSpec.LatestIsMaximum | long_connection_service/src/backbon/service/check_user_online.go:45-49 | the activity time is the maximum over the listed routes and zero |
| BackbonSpec.OnlineViewExact | long_connection_service/src/backbon/service/check_user_online.go:30-51 | online iff a scan of all facts finds a route, with their exact number and latest activity |
| BackbonSpec.CheckUsersExact | long_connection_service/src/backbon/service/check_user_online.go:12-28 | for any list of users each status is that of a scan at the start of the call: the repairs of earlier lookups do not show |
| BackbonSpec.EveryRouteCounts | long_connection_service/src/push/result.go:14-31 | under any failures each listed route ends in exactly one success, failure or cleanup |
| RouteFailures.ListingFailsIff | long_connection_service/src/route/redis_store.go:105-156 | a listing reports something other than routes or their absence iff one of its next commands does: SMEMBERS, then one read per non-blank ID of the set |
| BackbonSpec.OnlineAgreesWithRoutingIff | long_connection_service/src/backbon/service/check_user_online.go:30-61 | at the same state and failures, offline means NOOP_OFFLINE and back, if and only if none of those commands fails; otherwise the user reads as offline and the push as FAILED |
| BackbonSpec.OnlineAgreesWhenQuiet | long_connection_service/src/backbon/service/check_user_online.go:30-61 | without failures CheckUserOnline says offline iff the push answers NOOP_OFFLINE |
| BackbonSpec.ConnectedUserReadsOffline | long_connection_service/src/backbon/service/check_user_online.go:31-37 | with one refused command a user with an open, routable connection reads as offline while the push reports FAILED |
| BackbonTheorems.PushUsersDeliver | long_connection_service/src/backbon/service/push_data.go:29-34 | in any healthy state a push to a list offers each connection one copy per mention of its user, queues nothing else, and the i-th result reports who took the i-th push |
| BackbonTheorems.PushDataReachesEveryone | long_connection_service/src/backbon/service/push_data.go:29-34 | that at every moment of every run |
| BackbonTheorems.OfferedExact | long_connection_service/src/frontier/connection.go:133-153 | of n copies exactly those that fit are queued, in order, behind what was there; none on a closed connection |
| BackbonTheorems.ConnectedUsersAreOnline | long_connection_service/src/backbon/service/check_user_online.go:30-51 | at every moment of every run a user with open connections is seen online with at least that many |
| ServiceRegistry.Storage.RegisterService | long_connection_service/src/backbon/storage/service_registry.go:15-49 | empty names are dropped, a list without names is refused, the key lives a week |
| ServiceRegistry.Registry.RegisterService | long_connection_service/src/backbon/service/service_registry.go:13-41 | an empty service is refused and an empty list means the wildcard |
| ServiceRegistry.Storage.UnregisterService | long_connection_service/src/backbon/storage/service_registry.go:52-89 | an empty list clears the service, otherwise exactly the named members go |
| ServiceRegistry.Registry.UnregisterService | long_connection_service/src/backbon/service/service_registry.go:44-68 | an empty service is refused, nothing else is added |
| ServiceRegistry.Storage.GetService | long_connection_service/src/backbon/storage/service_registry.go:92-130 | method, then wildcard, then refusal; any registration when no method is asked for |
| ServiceRegistry.Handler.CheckServiceRegistered | long_connection_service/src/frontier/handler_ws.go:301-342 | the handler's own lookup, its refusals and its order of reads |
| ServiceRegistry.RunMembers | long_connection_service/src/backbon/storage/service_registry.go:15-89 | after any calls an entry is present iff the last call that touches it added it |
| ServiceRegistry.LookupsFollowHistory | long_connection_service/src/backbon/service/service_registry.go:13-87 | both lookups agree for every method and accept it iff the last call touching it or the wildcard added that entry |
| ServiceRegistry.ServiceFollowsHistory | long_connection_service/src/backbon/storage/service_registry.go:92-130 | without a method the lookup finds the service iff for some method the last call touching it added it |
| ServiceRegistry.RegisterAnswers | long_connection_service/src/backbon/service/service_registry.go:13-41 | under any failures a registration succeeds iff it names a service and a method, or none at all, and its first command does; then all it names is registered; each refusal says why and changes nothing |
| ServiceRegistry.ServiceLivesOn | long_connection_service/src/backbon/storage/service_registry.go:35-48 | after a success the service has the new methods and lives for seven days, or, when the expiry is refused, as long as it did, a new one without end |
| ServiceRegistry.UnregisterAnswers | long_connection_service/src/backbon/service/service_registry.go:44-68 | the same for an unregistration, after which nothing it names is left |
| ServiceRegistry.StorageRefuses | long_connection_service/src/backbon/storage/service_registry.go:15-49 | the storage itself refuses a list without names, the empty one included |
| ServiceRegistry.FindServiceAnswers | long_connection_service/src/backbon/storage/service_registry.go:92-130 | under any failures: what the lookup answers and which of its questions can make it fail |
| ServiceRegistry.CheckRequestAnswers | long_connection_service/src/frontier/handler_ws.go:257-342 | under any failures: what the handler answers, refusing a missing service or method before it asks |
| ServiceRegistry.HandlerIsStricter | long_connection_service/src/frontier/handler_ws.go:301-342 | what the handler lets through the lookup accepts, with the same failures to come |
| ServiceRegistry.RegistrationLastsAWeek | long_connection_service/src/backbon/storage/service_registry.go:43-47 | both lookups accept what a registration named for exactly seven days |

## Left out

- Absent parts (no hub, no store, no Redis client, no remote caller): the repository's wiring always supplies them, so those branches are not modelled.
- Integer widths: counters (32 bit) and times (64 bit) are unbounded integers.
- JSON and protobuf encoding: records and messages are carried losslessly; malformed stored records are not modelled, an empty gateway address is.
- Key formatting: the families of keys are assumed disjoint and injective.
- Message conversion and push metadata: a message is one opaque value.
- Error texts of Redis, the transport and the connection are placeholders; which error it is, is modelled.
- The external `stringutil.FilterEmpty` is not part of this model: `FilterEmpty` is what its callers rely on, the non-empty names in order.
- WebSocket upgrade, frames, ping and pong, TLS and HTTP handlers; the read and write pumps appear as steps of `SendProtocol` and as fleet events.
- The hub's channel loop and its shutdown: registrations, unregistrations and sweeps are the calls and events it makes.
- Goroutine interleavings inside hub and router methods: the classes run one call at a time; the interleavings proved are those of Redis commands (`RouteProtocol`) and of senders and closers (`SendProtocol`).
- Statistics other than the hub's counts of connections and of messages sent.
- RouteStore.RedisStore.Get: a stored record that does not decode is a further kind of error that no operation of the store can produce; it is not modelled.
- FleetInvariant.StepKeeps: assumes a Redis that does not fail, and an activity and the refresh it starts are one event (further refreshes may come at any time); what single operations do under failures is in `RouteFailures` and `RouterSafety`.
- ServiceRegistry.LookupsFollowHistory: histories without expiry; how long one registration lasts is `RegistrationLastsAWeek`.
- RouterSafety.RouteUserNeverCleansLive: for stores of keyed records, the only ones the store's operations produce; for other stores a remote push need not end, and `LocalRoutingSafeIff` covers the local part.
- RouterSafety.RouteConnectionNeverCleansLive: for stores of keyed records, for the same reason.
- RouteRaces.PushesLoseNoRoute: refreshes are not among its events, as one that overlaps a cleanup resurrects a route; expiry and failures are not either.
- Service discovery, client caching, configuration parsing, token checks, message handlers and logging.
