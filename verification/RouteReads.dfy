/** What the readers of the route store return, and how they repair the index,
    when Redis does not fail: the loops of ListByUser and CleanupStale against
    set-level descriptions. */
module RouteReads {
  import opened RouteModel
  import opened Redis
  import opened RouteSpec

  /** The record under a key carries that key's ID, or none. Only Register writes
      records, and it writes them under their own ID. */
  ghost predicate Keyed(db: Db) {
    forall id :: id in db.facts ==> db.facts[id].meta.connectionID == "" || db.facts[id].meta.connectionID == id
  }

  predicate Owns(db: Db, user: string, id: string) {
    Seen(db, id).Some? && Seen(db, id).value.userID == user
  }

  /** The reference answer to "which routes has this user": a scan of all facts. */
  function OwnedIds(db: Db, user: string): set<string> {
    set id | id in db.facts && !Blank(id) && Owns(db, user, id)
  }

  predicate DistinctIDs(metas: seq<ConnectionMeta>) {
    forall i, j :: 0 <= i < j < |metas| ==> metas[i].connectionID != metas[j].connectionID
  }

  function IDsOf(metas: seq<ConnectionMeta>): set<string> { set m | m in metas :: m.connectionID }

  /** The index entries a reader finds stale. Blank IDs are skipped, not removed. */
  function StaleSet(db: Db, user: string): set<string> {
    set id | id in Members(db, user) && !Blank(id) && !Owns(db, user, id)
  }

  function Repaired(db: Db, user: string): Db {
    if StaleSet(db, user) == {} then db else RemoveMembers(db, user, StaleSet(db, user))
  }

  // ----- the scan -----

  function LiveMetas(db: Db, user: string, ids: seq<string>): seq<ConnectionMeta> {
    if ids == [] then [] else
    var rest := LiveMetas(db, user, ids[..|ids| - 1]);
    var id := ids[|ids| - 1];
    if !Blank(id) && Owns(db, user, id) then rest + [Seen(db, id).value] else rest
  }

  function StaleIds(db: Db, user: string, ids: seq<string>): seq<string> {
    if ids == [] then [] else
    var rest := StaleIds(db, user, ids[..|ids| - 1]);
    var id := ids[|ids| - 1];
    if Blank(id) || Owns(db, user, id) then rest else rest + [id]
  }

  lemma {:induction false} ScanQuiet(db: Db, user: string, ids: seq<string>)
    requires db.script == []
    ensures Scan(db, user, ids) == (db, Ok(Scanned(LiveMetas(db, user, ids), StaleIds(db, user, ids))))
  {
    if ids != [] {
      ScanQuiet(db, user, ids[..|ids| - 1]);
    }
  }

  lemma {:induction false} StaleIdsExact(db: Db, user: string, ids: seq<string>)
    ensures forall id :: id in StaleIds(db, user, ids) <==> id in ids && !Blank(id) && !Owns(db, user, id)
  {
    if ids != [] {
      var n := |ids| - 1;
      StaleIdsExact(db, user, ids[..n]);
      assert ids == ids[..n] + [ids[n]];
    }
  }

  lemma SeenCarriesItsKey(db: Db, id: string)
    requires Keyed(db) && Seen(db, id).Some?
    ensures Seen(db, id).value.connectionID == id && id in db.facts
  {
  }

  lemma {:induction false} LiveMetasExact(db: Db, user: string, ids: seq<string>)
    requires Keyed(db)
    ensures forall m :: m in LiveMetas(db, user, ids) <==>
                        m.connectionID in ids && !Blank(m.connectionID)
                        && Seen(db, m.connectionID) == Some(m) && m.userID == user
    ensures NoDuplicates(ids) ==> DistinctIDs(LiveMetas(db, user, ids))
  {
    if ids != [] {
      var n := |ids| - 1;
      LiveMetasExact(db, user, ids[..n]);
      assert ids == ids[..n] + [ids[n]];
      if Seen(db, ids[n]).Some? { SeenCarriesItsKey(db, ids[n]); }
    }
  }

  /** Without failures a read repairs the index and returns the indexed facts the user owns. */
  lemma ListQuiet(db: Db, user: string, ids: seq<string>)
    requires db.script == [] && user != "" && Enumerates(ids, Members(db, user))
    ensures ListByUser(db, user, ids) ==
            (Repaired(db, user),
             if LiveMetas(db, user, ids) == [] then Err(NoLiveConnections) else Ok(LiveMetas(db, user, ids)))
  {
    ScanQuiet(db, user, ids);
    StaleIdsExact(db, user, ids);
    var stale := StaleIds(db, user, ids);
    assert (set id | id in stale) == StaleSet(db, user);
    if stale == [] {
      assert StaleSet(db, user) == {};
    } else {
      assert stale[0] in StaleSet(db, user);
    }
  }

  // ----- the sweeper -----

  function UnownedIds(db: Db, user: string, ids: seq<string>): seq<string> {
    if ids == [] then [] else
    var rest := UnownedIds(db, user, ids[..|ids| - 1]);
    if Owns(db, user, ids[|ids| - 1]) then rest else rest + [ids[|ids| - 1]]
  }

  lemma {:induction false} SweepScanQuiet(db: Db, user: string, ids: seq<string>)
    requires db.script == []
    ensures SweepScan(db, user, ids) == (db, UnownedIds(db, user, ids))
  {
    if ids != [] {
      SweepScanQuiet(db, user, ids[..|ids| - 1]);
    }
  }

  lemma {:induction false} UnownedExact(db: Db, user: string, ids: seq<string>)
    ensures forall id :: id in UnownedIds(db, user, ids) <==> id in ids && !Owns(db, user, id)
    ensures NoDuplicates(ids) ==> NoDuplicates(UnownedIds(db, user, ids))
  {
    if ids != [] {
      var n := |ids| - 1;
      UnownedExact(db, user, ids[..n]);
      assert ids == ids[..n] + [ids[n]];
    }
  }

  /** The number of elements of a sequence without duplicates. */
  lemma {:induction false} SetOfDistinct(s: seq<string>)
    requires NoDuplicates(s)
    ensures |set x | x in s| == |s|
  {
    if s != [] {
      var n := |s| - 1;
      SetOfDistinct(s[..n]);
      assert s == s[..n] + [s[n]];
      assert (set x | x in s) == (set x | x in s[..n]) + {s[n]};
    }
  }

  lemma RemoveMembersExact(db: Db, user: string, ids: set<string>, other: string)
    ensures Members(RemoveMembers(db, user, ids), other) ==
            if other == user then Members(db, user) - ids else Members(db, other)
  {
  }

  /** The indexed IDs the sweeper leaves, and the ones it removes. */
  function KeptIds(db: Db, user: string): set<string> {
    set id | id in Members(db, user) && Owns(db, user, id)
  }

  function SweptIds(db: Db, user: string): set<string> {
    Members(db, user) - KeptIds(db, user)
  }

  function Swept(db: Db, user: string): Db {
    if SweptIds(db, user) == {} then db else RemoveMembers(db, user, SweptIds(db, user))
  }

  lemma SweepQuiet(db: Db, user: string, ids: seq<string>)
    requires db.script == [] && Enumerates(ids, Members(db, user))
    ensures CleanupStale(db, user, ids) == (Swept(db, user), |SweptIds(db, user)|, None)
  {
    SweepScanQuiet(db, user, ids);
    UnownedExact(db, user, ids);
    var stale := UnownedIds(db, user, ids);
    SetOfDistinct(stale);
    var gone := set id | id in stale;
    assert gone == SweptIds(db, user);
    if stale != [] { assert stale[0] in gone; }
  }

  lemma SweptKeeps(db: Db, user: string)
    ensures forall other :: Members(Swept(db, user), other) ==
                            (if other == user then KeptIds(db, user) else Members(db, other))
    ensures |SweptIds(db, user)| == |Members(db, user)| - |KeptIds(db, user)|
    ensures var db' := Swept(db, user); db' == db.(index := db'.index)
  {
    var kept, gone := KeptIds(db, user), SweptIds(db, user);
    forall other
      ensures Members(Swept(db, user), other) == if other == user then kept else Members(db, other)
    {
      RemoveMembersExact(db, user, gone, other);
    }
    assert Members(db, user) == kept + gone && kept !! gone;
    assert |kept + gone| == |kept| + |gone|;
  }

  lemma SweptTwice(db: Db, user: string)
    ensures SweptIds(Swept(db, user), user) == {}
  {
    var db' := Swept(db, user);
    SweptKeeps(db, user);
    forall id | id in Members(db', user) ensures id in KeptIds(db', user) {
      assert Owns(db, user, id) && Seen(db', id) == Seen(db, id);
    }
  }

  /** The sweeper changes no fact, keeps exactly the indexed IDs whose fact belongs
      to the user, leaves other users' sets alone and counts what it removed. */
  lemma CleanupStaleExact(db: Db, user: string, ids: seq<string>)
    requires db.script == [] && Enumerates(ids, Members(db, user))
    ensures var (db', removed, err) := CleanupStale(db, user, ids);
            && err == None
            && db' == db.(index := db'.index)
            && (forall other :: Members(db', other) ==
                                (if other == user then KeptIds(db, user) else Members(db, other)))
            && removed == |Members(db, user)| - |Members(db', user)|
  {
    SweepQuiet(db, user, ids);
    SweptKeeps(db, user);
  }

  /** A repeated sweep finds nothing. */
  lemma CleanupStaleTwice(db: Db, user: string, ids: seq<string>, again: seq<string>)
    requires db.script == [] && Enumerates(ids, Members(db, user))
    requires Enumerates(again, Members(CleanupStale(db, user, ids).0, user))
    ensures var db' := CleanupStale(db, user, ids).0;
            CleanupStale(db', user, again) == (db', 0, None)
  {
    SweepQuiet(db, user, ids);
    SweptKeeps(db, user);
    SweptTwice(db, user);
    SweepQuiet(Swept(db, user), user, again);
  }

  /** Cleanup removes the one fact and the one index entry and touches nothing else. */
  lemma CleanupExact(db: Db, user: string, id: string)
    requires db.script == [] && id != ""
    ensures var (db', err) := Cleanup(db, user, id);
            && err == None
            && db'.facts == db.facts - {id} && db'.now == db.now && db'.script == []
            && (forall other :: Members(db', other) ==
                                (if other == user && user != "" then Members(db, other) - {id} else Members(db, other)))
            && Cleanup(db', user, id) == (db', None)
  {
    var db' := Cleanup(db, user, id).0;
    forall other
      ensures Members(db', other) == if other == user && user != "" then Members(db, other) - {id}
                                     else Members(db, other)
    {
      RemoveMembersExact(db, user, {id}, other);
    }
    if user != "" && HasSet(db', user) {
      assert id !in db'.index[user].members;
      assert db'.index[user].members != {};
      assert db'.index[user].members - {id} == db'.index[user].members;
      assert db'.index[user := db'.index[user]] == db'.index;
    }
    assert db'.facts - {id} == db'.facts;
  }
}
