/** From the actor table to the first simulated actors: the ordered vector of connections and the pids
    that SimGrid gives out. */
module InitialActors {
  import opened Wrappers
  import opened Commands

  datatype OrderError = WrongFirstId | NotConsecutive

  /** The entries in the order in which the hash map is iterated. */
  function Entries(m: Table, order: seq<int>): (v: seq<ActorConnection>)
    requires forall i | 0 <= i < |order| :: order[i] in m
    ensures |v| == |order| && forall i | 0 <= i < |order| :: v[i] == m[order[i]]
  {
    if order == [] then [] else [m[order[0]]] + Entries(m, order[1..])
  }

  /** `order` visits every key of `m` once. */
  ghost predicate IsIteration(m: Table, order: seq<int>) {
    && |order| == |m|
    && (forall i | 0 <= i < |order| :: order[i] in m)
    && (forall k <- m :: k in order)
  }

  /** `v` has the entries of `m` in some order, each as often as the map holds it. */
  ghost predicate Permutes(m: Table, order: seq<int>, v: seq<ActorConnection>) {
    IsIteration(m, order) && multiset(v) == multiset(Entries(m, order))
  }

  ghost predicate SortedById(v: seq<ActorConnection>) {
    forall i, j | 0 <= i < j < |v| :: v[i].actorId <= v[j].actorId
  }

  /** `std::sort` by ascending actor id. */
  method SortById(v: seq<ActorConnection>) returns (r: seq<ActorConnection>)
    ensures SortedById(r) && multiset(r) == multiset(v)
  {
    r := [];
    for i := 0 to |v|
      invariant SortedById(r) && multiset(r) == multiset(v[..i])
    {
      assert v[..i + 1] == v[..i] + [v[i]];
      r := InsertById(r, v[i]);
    }
    assert v[..|v|] == v;
  }

  method InsertById(v: seq<ActorConnection>, c: ActorConnection) returns (r: seq<ActorConnection>)
    requires SortedById(v)
    ensures SortedById(r) && multiset(r) == multiset(v) + multiset{c}
  {
    var k := 0;
    while k < |v| && v[k].actorId <= c.actorId
      invariant 0 <= k <= |v|
      invariant forall j | 0 <= j < k :: v[j].actorId <= c.actorId
    {
      k := k + 1;
    }
    InsertedInOrder(v, k, c);
    r := v[..k] + [c] + v[k..];
  }

  lemma InsertedInOrder(v: seq<ActorConnection>, k: nat, c: ActorConnection)
    requires SortedById(v) && k <= |v| && (forall j | 0 <= j < k :: v[j].actorId <= c.actorId)
    requires k < |v| ==> c.actorId < v[k].actorId
    ensures SortedById(v[..k] + [c] + v[k..]) && multiset(v[..k] + [c] + v[k..]) == multiset(v) + multiset{c}
  {
    assert v == v[..k] + v[k..];
    var r := v[..k] + [c] + v[k..];
    forall i, j | 0 <= i < j < |r|
      ensures r[i].actorId <= r[j].actorId
    {
      PairInOrder(v, k, c, i, j);
    }
  }

  lemma PairInOrder(v: seq<ActorConnection>, k: nat, c: ActorConnection, i: nat, j: nat)
    requires SortedById(v) && k <= |v| && (forall j | 0 <= j < k :: v[j].actorId <= c.actorId)
    requires (k < |v| ==> c.actorId < v[k].actorId) && i < j <= |v|
    ensures (v[..k] + [c] + v[k..])[i].actorId <= (v[..k] + [c] + v[k..])[j].actorId
  {
    if j > k {
      assert v[k].actorId <= v[j - 1].actorId;
    }
  }

  ghost predicate HasId(v: seq<ActorConnection>, id: int) {
    exists k :: 0 <= k < |v| && v[k].actorId == id
  }

  ghost predicate Covers(v: seq<ActorConnection>, lo: int) {
    forall id | lo <= id < lo + |v| :: HasId(v, id)
  }

  /** A sorted sequence of n numbers that covers lo, ..., lo + n - 1 is that range, in order. */
  lemma {:induction false} SortedCoverIsRange(v: seq<ActorConnection>, lo: int)
    requires SortedById(v)
    requires Covers(v, lo)
    ensures forall k | 0 <= k < |v| :: v[k].actorId == lo + k
  {
    forall k | 0 <= k < |v|
      ensures v[k].actorId == lo + k
    {
      var p := PositionOf(v, lo, k);
      AtLeast(v, lo, k, p);
      AtMost(v, lo, k, p);
    }
  }

  lemma PositionOf(v: seq<ActorConnection>, lo: int, k: nat) returns (p: nat)
    requires k < |v| && Covers(v, lo)
    ensures p < |v| && v[p].actorId == lo + k
  {
    assert HasId(v, lo + k);
    p :| 0 <= p < |v| && v[p].actorId == lo + k;
  }

  /** Below the place of lo + k there are k smaller numbers. */
  lemma {:induction false} AtLeast(v: seq<ActorConnection>, lo: int, k: nat, p: nat)
    requires SortedById(v) && k < |v| && p < |v| && v[p].actorId == lo + k
    requires Covers(v, lo)
    ensures k <= p
    decreases k
  {
    if k > 0 {
      var q := PositionOf(v, lo, k - 1);
      AtLeast(v, lo, k - 1, q);
    }
  }

  /** Above it there are |v| - 1 - k larger ones. */
  lemma {:induction false} AtMost(v: seq<ActorConnection>, lo: int, k: nat, p: nat)
    requires SortedById(v) && k < |v| && p < |v| && v[p].actorId == lo + k
    requires Covers(v, lo)
    ensures p <= k
    decreases |v| - k
  {
    if k + 1 < |v| {
      var q := PositionOf(v, lo, k + 1);
      AtMost(v, lo, k + 1, q);
    }
  }

  /** The ids stored in the entries are exactly 2 to |m| + 1; no two entries can then share one. */
  ghost predicate IdsAreInitial(m: Table) {
    && (forall k <- m :: IsInitialId(|m|, m[k].actorId))
    && (forall id | IsInitialId(|m|, id) :: exists k :: k in m && m[k].actorId == id)
  }

  ghost predicate SmallestIdIs(m: Table, id: int) {
    && (exists k :: k in m && m[k].actorId == id)
    && (forall k <- m :: m[k].actorId >= id)
  }

  /** Accepts a table exactly when its ids are the initial ones, and then returns its entries, each as
      often as the table holds it, in the order of their ids. */
  method ConnectionsUnorderedmapToVector(m: Table, order: seq<int>)
    returns (r: Result<seq<ActorConnection>, OrderError>)
    requires IsIteration(m, order)
    ensures r.Ok? <==> IdsAreInitial(m)
    ensures r.Ok? ==>
              && |r.value| == |m|
              && (forall i | 0 <= i < |m| :: r.value[i].actorId == i + 2)
              && Permutes(m, order, r.value)
    ensures r == Err(WrongFirstId) <==> |m| > 0 && !SmallestIdIs(m, 2)
  {
    hide IdsAreInitial, SmallestIdIs, SortedById, SameEntries;
    if m == map[] {
      NoEntries(m, order);
      return Ok([]);
    }
    var v := Unsorted(m, order);
    v := SortById(v);
    assert Permutes(m, order, v);
    SameMembers(m, order, v);
    hide IsIteration, Entries, Permutes;
    SameSize(m, v);
    FirstIsSmallest(m, v);
    OneSmallest(m, v[0].actorId);
    if v[0].actorId != 2 {
      OutOfPlace(m, v, 0);
      return Err(WrongFirstId);
    }
    var i := 1;
    while i < |v|
      invariant 1 <= i <= |v|
      invariant forall j | 0 <= j < i :: v[j].actorId == j + 2
    {
      if v[i - 1].actorId + 1 != v[i].actorId {
        OutOfPlace(m, v, i);
        return Err(NotConsecutive);
      }
      i := i + 1;
    }
    InPlace(m, v);
    r := Ok(v);
  }

  /** The entries in the order of the iteration. */
  method Unsorted(m: Table, order: seq<int>) returns (v: seq<ActorConnection>)
    requires forall i | 0 <= i < |order| :: order[i] in m
    ensures v == Entries(m, order)
  {
    v := [];
    for i := 0 to |order|
      invariant v == Entries(m, order)[..i]
    {
      v := v + [m[order[i]]];
    }
  }

  lemma NoEntries(m: Table, order: seq<int>)
    requires m == map[] && IsIteration(m, order)
    ensures IdsAreInitial(m) && Permutes(m, order, [])
  {
  }

  lemma SameSize(m: Table, v: seq<ActorConnection>)
    requires SameEntries(m, v)
    ensures |v| == |m|
  {
  }

  lemma InPlace(m: Table, v: seq<ActorConnection>)
    requires SameEntries(m, v) && forall i | 0 <= i < |v| :: v[i].actorId == i + 2
    ensures IdsAreInitial(m)
  {
    forall id | IsInitialId(|m|, id)
      ensures exists k :: k in m && m[k].actorId == id
    {
      assert v[id - 2].actorId == id && v[id - 2] in v;
    }
  }

  lemma OutOfPlace(m: Table, v: seq<ActorConnection>, i: nat)
    requires SameEntries(m, v) && SortedById(v) && i < |v| && v[i].actorId != i + 2
    ensures !IdsAreInitial(m)
  {
    if IdsAreInitial(m) {
      CoveredBy(m, v);
    }
  }

  lemma OneSmallest(m: Table, id: int)
    requires SmallestIdIs(m, id)
    ensures SmallestIdIs(m, 2) <==> id == 2
  {
  }

  /** `v` lists the entries of `m`. */
  ghost predicate SameEntries(m: Table, v: seq<ActorConnection>) {
    && |v| == |m|
    && (forall k <- m :: m[k] in v)
    && (forall c <- v :: exists k :: k in m && m[k] == c)
  }

  lemma SameMembers(m: Table, order: seq<int>, v: seq<ActorConnection>)
    requires Permutes(m, order, v)
    ensures SameEntries(m, v)
  {
    var entries := Entries(m, order);
    assert |multiset(v)| == |v| && |multiset(entries)| == |entries|;
    forall k <- m
      ensures m[k] in v
    {
      var i :| 0 <= i < |order| && order[i] == k;
      assert entries[i] == m[k] && m[k] in multiset(entries);
    }
    forall c <- v
      ensures exists k :: k in m && m[k] == c
    {
      assert c in multiset(entries);
      var i :| 0 <= i < |entries| && entries[i] == c;
      var k := order[i];
      assert k in m && entries[i] == m[k];
    }
  }

  lemma FirstIsSmallest(m: Table, v: seq<ActorConnection>)
    requires SameEntries(m, v) && v != [] && SortedById(v)
    ensures SmallestIdIs(m, v[0].actorId)
  {
    assert v[0] in v;
    forall k <- m
      ensures m[k].actorId >= v[0].actorId
    {
      assert m[k] in v;
    }
  }

  lemma CoveredBy(m: Table, v: seq<ActorConnection>)
    requires SameEntries(m, v) && SortedById(v) && IdsAreInitial(m)
    ensures forall i | 0 <= i < |v| :: v[i].actorId == i + 2
  {
    forall id | 2 <= id < 2 + |v|
      ensures HasId(v, id)
    {
      assert IsInitialId(|m|, id);
      var k :| k in m && m[k].actorId == id;
      assert m[k] in v;
    }
    SortedCoverIsRange(v, 2);
  }

  // ----- the maestro

  datatype SpawnedActor = SpawnedActor(pid: int, connection: ActorConnection)

  datatype Launched =
    | Aborted(actorId: int)
    | Spawned(actors: seq<SpawnedActor>)

  /** Pid that SimGrid gives to the first initial actor: the attached temporary actor took 1. */
  const FIRST_PID := 2

  /** Nothing is spawned when some requested host is unknown; otherwise all actors are, in order, with
      consecutive pids. */
  method SpawnInitialActors(v: seq<ActorConnection>, hostExists: string -> bool) returns (r: Launched)
    ensures r.Aborted? <==> exists i :: 0 <= i < |v| && !hostExists(v[i].hostName)
    ensures r.Aborted? ==> exists i :: 0 <= i < |v| && !hostExists(v[i].hostName) && v[i].actorId == r.actorId
    ensures r.Spawned? ==> |r.actors| == |v|
    ensures r.Spawned? ==> forall i | 0 <= i < |v| :: r.actors[i] == SpawnedActor(FIRST_PID + i, v[i])
  {
    for i := 0 to |v|
      invariant forall j | 0 <= j < i :: hostExists(v[j].hostName)
    {
      if !hostExists(v[i].hostName) {
        return Aborted(v[i].actorId);
      }
    }
    var nextPid := FIRST_PID;
    var actors: seq<SpawnedActor> := [];
    for i := 0 to |v|
      invariant nextPid == FIRST_PID + i && |actors| == i
      invariant forall j | 0 <= j < i :: actors[j] == SpawnedActor(FIRST_PID + j, v[j])
    {
      actors := actors + [SpawnedActor(nextPid, v[i])];
      nextPid := nextPid + 1;
    }
    r := Spawned(actors);
  }

  lemma ContiguousTableIsInitial(m: Table)
    requires Contiguous(m) && forall id <- m :: m[id].actorId == id
    ensures IdsAreInitial(m)
  {
    forall id | IsInitialId(|m|, id)
      ensures exists k :: k in m && m[k].actorId == id
    {
      assert id in m;
    }
  }

  lemma OrderedEntries(m: Table, v: seq<ActorConnection>)
    requires SameEntries(m, v) && (forall id <- m :: m[id].actorId == id)
    requires forall i | 0 <= i < |v| :: v[i].actorId == i + 2
    ensures Ordered(m, v)
  {
    forall i | 0 <= i < |v|
      ensures v[i].actorId in m && v[i] == m[v[i].actorId]
    {
      assert v[i] in v;
      var k :| k in m && m[k] == v[i];
      assert m[k].actorId == k;
    }
  }

  /** The entries of a table that is keyed by 2, 3, ..., in order. */
  ghost predicate Ordered(m: Table, v: seq<ActorConnection>) {
    |v| == |m| && forall i | 0 <= i < |v| :: v[i].actorId == i + 2 && v[i].actorId in m && v[i] == m[v[i].actorId]
  }

  /** Each entry was spawned with the pid under which it is registered. */
  ghost predicate SpawnedAsRegistered(m: Table, actors: seq<SpawnedActor>) {
    && |actors| == |m|
    && forall i | 0 <= i < |actors| ::
         actors[i].pid == i + 2 && actors[i].pid in m && actors[i].connection == m[actors[i].pid]
  }

  lemma SpawnedInOrder(m: Table, v: seq<ActorConnection>, actors: seq<SpawnedActor>)
    requires Ordered(m, v) && |actors| == |v|
    requires forall i | 0 <= i < |v| :: actors[i] == SpawnedActor(FIRST_PID + i, v[i])
    ensures SpawnedAsRegistered(m, actors)
  {
    forall i | 0 <= i < |actors|
      ensures actors[i].pid == i + 2 && actors[i].pid in m && actors[i].connection == m[actors[i].pid]
    {
      assert v[i].actorId == i + 2;
    }
  }

  ghost predicate HostMissing(m: Table, hostExists: string -> bool) {
    exists id :: id in m && !hostExists(m[id].hostName)
  }

  lemma HostMissingAgrees(m: Table, v: seq<ActorConnection>, hostExists: string -> bool)
    requires SameEntries(m, v)
    ensures HostMissing(m, hostExists) <==> exists i :: 0 <= i < |v| && !hostExists(v[i].hostName)
  {
    if HostMissing(m, hostExists) {
      var id :| id in m && !hostExists(m[id].hostName);
      assert m[id] in v;
      var i :| 0 <= i < |v| && v[i] == m[id];
      assert !hostExists(v[i].hostName);
    }
    if exists i :: 0 <= i < |v| && !hostExists(v[i].hostName) {
      var i :| 0 <= i < |v| && !hostExists(v[i].hostName);
      assert v[i] in v;
      var k :| k in m && m[k] == v[i];
      assert !hostExists(m[k].hostName);
    }
  }

  /** A table that keys its entries by their ids 2 to |m| + 1 is never rejected, and every entry of it
      is spawned once, with the pid it was registered under. */
  method StartSimulation(m: Table, order: seq<int>, hostExists: string -> bool) returns (r: Launched)
    requires Contiguous(m) && forall id <- m :: m[id].actorId == id
    requires IsIteration(m, order)
    ensures r.Aborted? <==> HostMissing(m, hostExists)
    ensures r.Spawned? ==> SpawnedAsRegistered(m, r.actors)
  {
    ContiguousTableIsInitial(m);
    hide Contiguous, IsIteration, IdsAreInitial, SmallestIdIs, SameEntries, HostMissing, Permutes, Ordered,
         SpawnedAsRegistered;
    var v := ConnectionsUnorderedmapToVector(m, order);
    var entries := v.value;
    SameMembers(m, order, entries);
    SameSize(m, entries);
    OrderedEntries(m, entries);
    HostMissingAgrees(m, entries, hostExists);
    r := SpawnInitialActors(entries, hostExists);
    if r.Spawned? {
      SpawnedInOrder(m, entries, r.actors);
    }
  }
}
