/** The hub's two connection maps and its counters (src/frontier/hub.go) as a value,
    over runs of registrations and unregistrations. */
module HubSpec {

  /** `connections` maps each connection to its user; `users` is the index by user. */
  datatype HubMaps = HubMaps(connections: map<string, string>, users: map<string, set<string>>, total: nat, active: nat)

  const NEW_HUB := HubMaps(map[], map[], 0, 0)

  function UserSet(h: HubMaps, user: string): set<string> { if user in h.users then h.users[user] else {} }

  function Register(h: HubMaps, id: string, user: string): HubMaps {
    HubMaps(h.connections[id := user],
            if user == "" then h.users else h.users[user := UserSet(h, user) + {id}],
            h.total + 1, h.active + 1)
  }

  function DropFromUser(users: map<string, set<string>>, user: string, id: string): map<string, set<string>> {
    if user == "" || user !in users then users
    else if users[user] - {id} == {} then users - {user}
    else users[user := users[user] - {id}]
  }

  function Unregister(h: HubMaps, id: string): HubMaps {
    if id !in h.connections then h
    else HubMaps(h.connections - {id}, DropFromUser(h.users, h.connections[id], id),
                 h.total, if h.active > 0 then h.active - 1 else 0)
  }

  // ----- the invariant -----

  /** The index is the partition of the connections by non-empty user. */
  ghost predicate Twins(h: HubMaps) {
    && (forall user :: user in h.users ==> user != "" && h.users[user] != {})
    && (forall user, id :: id in UserSet(h, user) <==> user != "" && id in h.connections && h.connections[id] == user)
  }

  ghost predicate Consistent(h: HubMaps) { Twins(h) && h.active == |h.connections| }

  lemma RegisterSets(h: HubMaps, id: string, user: string, u: string)
    ensures UserSet(Register(h, id, user), u) == UserSet(h, u) + if u == user && user != "" then {id} else {}
  {
  }

  lemma UnregisterSets(h: HubMaps, id: string, u: string)
    requires Twins(h) && id in h.connections
    ensures UserSet(Unregister(h, id), u) == UserSet(h, u) - if u == h.connections[id] then {id} else {}
  {
    assert id in UserSet(h, u) ==> u == h.connections[id];
  }

  lemma RegisterTwins(h: HubMaps, id: string, user: string)
    requires Twins(h) && id !in h.connections
    ensures Twins(Register(h, id, user))
  {
    var h' := Register(h, id, user);
    forall u | u in h'.users ensures u != "" && h'.users[u] != {} {
      if u == user { assert id in h'.users[u]; }
    }
    forall u, x ensures x in UserSet(h', u) <==> u != "" && x in h'.connections && h'.connections[x] == u {
      RegisterSets(h, id, user, u);
      assert x in UserSet(h, u) <==> u != "" && x in h.connections && h.connections[x] == u;
    }
  }

  lemma RegisterFresh(h: HubMaps, id: string, user: string)
    requires Consistent(h) && id !in h.connections
    ensures Consistent(Register(h, id, user))
  {
    RegisterTwins(h, id, user);
    SizeAfterPut(h.connections, id, user);
  }

  lemma SizeAfterPut(m: map<string, string>, id: string, user: string)
    ensures |m[id := user]| == |m| + if id in m then 0 else 1
  {
    assert m[id := user].Keys == m.Keys + {id};
    assert |m[id := user]| == |m[id := user].Keys| && |m| == |m.Keys|;
  }

  lemma UnregisterTwins(h: HubMaps, id: string)
    requires Twins(h) && id in h.connections
    ensures Twins(Unregister(h, id))
  {
    var h' := Unregister(h, id);
    forall u, x ensures x in UserSet(h', u) <==> u != "" && x in h'.connections && h'.connections[x] == u {
      UnregisterSets(h, id, u);
      assert x in UserSet(h, u) <==> u != "" && x in h.connections && h.connections[x] == u;
    }
  }

  lemma UnregisterKeeps(h: HubMaps, id: string)
    requires Consistent(h)
    ensures Consistent(Unregister(h, id))
  {
    if id in h.connections {
      UnregisterTwins(h, id);
      ActiveDrops(h, id);
      assert h.connections.Keys - {id} == (h.connections - {id}).Keys;
      assert |h.connections| == |h.connections.Keys| && |h.connections - {id}| == |(h.connections - {id}).Keys|;
    }
  }

  /** Registering keeps maps and counters consistent iff the ID is new: registering an
      ID again overwrites its entry but counts it twice. */
  lemma RegisterConsistentIff(h: HubMaps, id: string, user: string)
    requires Consistent(h)
    ensures Consistent(Register(h, id, user)) <==> id !in h.connections
  {
    if id in h.connections {
      SizeAfterPut(h.connections, id, user);
    } else {
      RegisterFresh(h, id, user);
    }
  }

  // ----- runs -----

  datatype Event = Joined(id: string, user: string) | Left(id: string)

  function Step(h: HubMaps, e: Event): HubMaps {
    match e
    case Joined(id, user) => Register(h, id, user)
    case Left(id) => Unregister(h, id)
  }

  function Run(events: seq<Event>): HubMaps {
    if events == [] then NEW_HUB else Step(Run(events[..|events| - 1]), events[|events| - 1])
  }

  /** No ID joins while it is connected. */
  ghost predicate FreshIDs(events: seq<Event>) {
    forall i :: 0 <= i < |events| && events[i].Joined? ==> events[i].id !in Run(events[..i]).connections
  }

  /** The unregistrations that found their connection. */
  function Departures(events: seq<Event>): nat {
    if events == [] then 0 else
    var last := events[|events| - 1];
    var leaves := last.Left? && last.id in Run(events[..|events| - 1]).connections;
    Departures(events[..|events| - 1]) + if leaves then 1 else 0
  }

  function Arrivals(events: seq<Event>): nat {
    if events == [] then 0 else Arrivals(events[..|events| - 1]) + if events[|events| - 1].Joined? then 1 else 0
  }

  /** Over any run with fresh IDs the index is exactly the partition of the connections
      by non-empty user with no empty entry, ActiveConnections counts the connections,
      TotalConnections the arrivals, and they differ by the effective departures. */
  lemma {:induction false} HubRunConsistent(events: seq<Event>)
    requires FreshIDs(events)
    ensures var h := Run(events);
            && Twins(h)
            && h.active == |h.connections|
            && h.total == Arrivals(events) == h.active + Departures(events)
  {
    if events != [] {
      var n := |events| - 1;
      forall i | 0 <= i < n && events[..n][i].Joined? ensures events[..n][i].id !in Run(events[..n][..i]).connections {
        assert events[..n][..i] == events[..i];
      }
      HubRunConsistent(events[..n]);
      match events[n]
      case Joined(id, user) => RegisterFresh(Run(events[..n]), id, user);
      case Left(id) => UnregisterKeeps(Run(events[..n]), id); ActiveDrops(Run(events[..n]), id);
    }
  }

  lemma ActiveDrops(h: HubMaps, id: string)
    requires Consistent(h)
    ensures h.active == Unregister(h, id).active + if id in h.connections then 1 else 0
  {
    if id in h.connections {
      assert h.connections.Keys - {id} < h.connections.Keys && |h.connections| == |h.connections.Keys|;
    }
  }

  /** A repeated unregistration changes nothing. */
  lemma UnregisterTwice(h: HubMaps, id: string)
    ensures Unregister(Unregister(h, id), id) == Unregister(h, id)
  {
  }
}
