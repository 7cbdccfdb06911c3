/**
 WebApi/Services/ReceivedChunkCache.cs: the chunk indexes marked per upload, with a sliding lifetime and a cap. Calls
 come one after another here, each at one instant; `order` is the order in which the dictionary happens to enumerate
 its keys when a call has to evict.
 */
module ChunkCaching {
  import opened Base
  import opened Repository

  const MAX_ENTRIES: nat := 10_000

  datatype Entry = Entry(chunks: set<int>, lastAccess: int)

  type Maps = map<Id, Entry>

  predicate Stale(e: Entry, now: int, ttl: nat) { now - e.lastAccess > ttl }

  // ---- Eviction ----------------------------------------------------------------------------------------

  ghost predicate Distinct(xs: seq<Id>) { forall i, j :: 0 <= i < j < |xs| ==> xs[i] != xs[j] }

  ghost predicate Enumerates(order: seq<Id>, m: Maps) { Distinct(order) && forall id :: id in order <==> id in m }

  function WithoutStale(m: Maps, now: int, ttl: nat): Maps { map id | id in m && !Stale(m[id], now, ttl) :: m[id] }

  /** The ids of `order` that are still in the map. */
  function Remaining(order: seq<Id>, m: Maps): seq<Id> {
    if order == [] then [] else (if order[0] in m then [order[0]] else []) + Remaining(order[1..], m)
  }

  function InsertByAccess(m: Maps, id: Id, sorted: seq<Id>): seq<Id>
    requires id in m && forall x :: x in sorted ==> x in m
  {
    if sorted == [] || m[id].lastAccess <= m[sorted[0]].lastAccess then [id] + sorted
    else [sorted[0]] + InsertByAccess(m, id, sorted[1..])
  }

  /** OrderBy LastAccessUtc: a stable sort. */
  function ByAccess(m: Maps, ids: seq<Id>): (sorted: seq<Id>)
    requires forall x :: x in ids ==> x in m
    ensures multiset(sorted) == multiset(ids)
  {
    if ids == [] then []
    else
      assert ids == [ids[0]] + ids[1..];
      var rest := ByAccess(m, ids[1..]);
      assert forall x :: x in rest ==> x in multiset(rest);
      InsertKeeps(m, ids[0], rest);
      InsertByAccess(m, ids[0], rest)
  }

  lemma {:induction false} InsertKeeps(m: Maps, id: Id, sorted: seq<Id>)
    requires id in m && forall x :: x in sorted ==> x in m
    ensures multiset(InsertByAccess(m, id, sorted)) == multiset(sorted) + multiset{id}
  {
    if sorted == [] || m[id].lastAccess <= m[sorted[0]].lastAccess {
    } else {
      InsertKeeps(m, id, sorted[1..]);
      assert sorted == [sorted[0]] + sorted[1..];
    }
  }

  ghost predicate Ordered(m: Maps, xs: seq<Id>) {
    && (forall x :: x in xs ==> x in m)
    && forall i, j :: 0 <= i <= j < |xs| ==> m[xs[i]].lastAccess <= m[xs[j]].lastAccess
  }

  lemma PrependOrdered(m: Maps, id: Id, xs: seq<Id>)
    requires id in m && Ordered(m, xs) && forall x :: x in xs ==> m[id].lastAccess <= m[x].lastAccess
    ensures Ordered(m, [id] + xs)
  {
  }

  lemma {:induction false} InsertOrders(m: Maps, id: Id, sorted: seq<Id>)
    requires id in m && Ordered(m, sorted)
    ensures Ordered(m, InsertByAccess(m, id, sorted))
  {
    if sorted == [] || m[id].lastAccess <= m[sorted[0]].lastAccess {
      PrependOrdered(m, id, sorted);
    } else {
      InsertOrders(m, id, sorted[1..]);
      var rest := InsertByAccess(m, id, sorted[1..]);
      InsertKeeps(m, id, sorted[1..]);
      forall x | x in rest
        ensures x in m && m[sorted[0]].lastAccess <= m[x].lastAccess
      {
        assert x in multiset(rest);
        if x != id {
          assert x in sorted[1..];
        }
      }
      PrependOrdered(m, sorted[0], rest);
    }
  }

  lemma {:induction false} ByAccessOrders(m: Maps, ids: seq<Id>)
    requires forall x :: x in ids ==> x in m
    ensures Ordered(m, ByAccess(m, ids))
  {
    if ids != [] {
      ByAccessOrders(m, ids[1..]);
      InsertOrders(m, ids[0], ByAccess(m, ids[1..]));
    }
  }

  /** The older half, by last access. */
  function OldestHalf(m: Maps, order: seq<Id>): set<Id>
    requires forall x :: x in order ==> x in m
  {
    var sorted := ByAccess(m, order);
    set x | x in sorted[..|sorted| / 2]
  }

  /** EvictIfNeeded. */
  function Evicted(m: Maps, order: seq<Id>, now: int, ttl: nat): Maps {
    if |m| < MAX_ENTRIES then m
    else
      var live := WithoutStale(m, now, ttl);
      if |live| < MAX_ENTRIES then live
      else
        RemainingIsPresent(order, live);
        live - OldestHalf(live, Remaining(order, live))
  }

  lemma {:induction false} RemainingIsPresent(order: seq<Id>, m: Maps)
    ensures forall x :: x in Remaining(order, m) <==> x in order && x in m
  {
    if order != [] {
      RemainingIsPresent(order[1..], m);
    }
  }

  lemma {:induction false} RemainingIsDistinct(order: seq<Id>, m: Maps)
    requires Distinct(order)
    ensures Distinct(Remaining(order, m))
  {
    if order != [] {
      RemainingIsDistinct(order[1..], m);
      RemainingIsPresent(order[1..], m);
    }
  }

  lemma {:induction false} DistinctCount(xs: seq<Id>)
    requires Distinct(xs)
    ensures |set x | x in xs| == |xs|
  {
    if xs != [] {
      DistinctCount(xs[1..]);
      assert (set x | x in xs) == {xs[0]} + (set x | x in xs[1..]);
    }
  }

  lemma {:induction false} DistinctByCounts(xs: seq<Id>)
    ensures Distinct(xs) <==> forall x :: x in xs ==> multiset(xs)[x] == 1
  {
    if xs != [] {
      var rest := xs[1..];
      DistinctByCounts(rest);
      assert xs == [xs[0]] + rest;
      assert Distinct(xs) ==> xs[0] !in rest;
      if forall x :: x in xs ==> multiset(xs)[x] == 1 {
        assert xs[0] in xs && multiset(xs)[xs[0]] == 1 + multiset(rest)[xs[0]];
        assert xs[0] !in multiset(rest);
        forall x | x in rest
          ensures multiset(rest)[x] == 1
        {
          assert x in xs;
        }
      }
    }
  }

  /** Sorting keeps the ids, each once. */
  lemma SortedEnumerates(m: Maps, order: seq<Id>)
    requires Enumerates(order, m)
    ensures Enumerates(ByAccess(m, order), m) && |ByAccess(m, order)| == |m|
  {
    var sorted := ByAccess(m, order);
    DistinctByCounts(order);
    DistinctByCounts(sorted);
    forall id
      ensures id in sorted <==> id in m
    {
      assert id in multiset(sorted) <==> id in multiset(order);
    }
    forall x | x in sorted
      ensures multiset(sorted)[x] == 1
    {
      assert x in multiset(order);
    }
    DistinctCount(sorted);
    assert (set x | x in sorted) == m.Keys;
  }

  /** The oldest half is half the map, and nothing in it was touched after something outside it. */
  lemma OldestHalfIsOldest(m: Maps, order: seq<Id>)
    requires Enumerates(order, m)
    ensures |OldestHalf(m, order)| == |m| / 2 && OldestHalf(m, order) <= m.Keys
    ensures forall a, b :: a in OldestHalf(m, order) && b in m && b !in OldestHalf(m, order) ==>
      m[a].lastAccess <= m[b].lastAccess
  {
    var sorted := ByAccess(m, order);
    SortedEnumerates(m, order);
    ByAccessOrders(m, order);
    DistinctCount(sorted[..|m| / 2]);
    forall a, b | a in OldestHalf(m, order) && b in m && b !in OldestHalf(m, order)
      ensures m[a].lastAccess <= m[b].lastAccess
    {
      var i :| 0 <= i < |m| / 2 && sorted[i] == a;
      assert b in sorted;
      var j :| 0 <= j < |sorted| && sorted[j] == b;
      assert j >= |m| / 2;
    }
  }

  lemma RemainingEnumerates(order: seq<Id>, m: Maps, live: Maps)
    requires Enumerates(order, m) && live.Keys <= m.Keys
    ensures Enumerates(Remaining(order, live), live)
  {
    RemainingIsPresent(order, live);
    RemainingIsDistinct(order, live);
  }

  /** Eviction changes no entry it keeps, and never drops an entry touched more recently than one it keeps. */
  lemma EvictionIsFair(m: Maps, order: seq<Id>, now: int, ttl: nat)
    requires Enumerates(order, m)
    ensures forall b :: b in Evicted(m, order, now, ttl) ==> b in m && Evicted(m, order, now, ttl)[b] == m[b]
    ensures forall a, b :: a in m && a !in Evicted(m, order, now, ttl) && b in Evicted(m, order, now, ttl) ==>
      m[a].lastAccess <= m[b].lastAccess
  {
    var live := WithoutStale(m, now, ttl);
    RemainingEnumerates(order, m, live);
    OldestHalfIsOldest(live, Remaining(order, live));
  }

  /** Eviction makes room: a map within the cap comes out below it, and one at the cap of live entries is halved. */
  lemma EvictionMakesRoom(m: Maps, order: seq<Id>, now: int, ttl: nat)
    requires Enumerates(order, m) && |m| <= MAX_ENTRIES
    ensures |Evicted(m, order, now, ttl)| < MAX_ENTRIES
    ensures |WithoutStale(m, now, ttl)| == MAX_ENTRIES ==> |Evicted(m, order, now, ttl)| == MAX_ENTRIES / 2
  {
    var live := WithoutStale(m, now, ttl);
    SubmapIsSmaller(live, m);
    RemainingEnumerates(order, m, live);
    var half := OldestHalf(live, Remaining(order, live));
    OldestHalfIsOldest(live, Remaining(order, live));
    assert (live - half).Keys == live.Keys - half;
  }

  /** An entry goes only from a full map, and a live one only when 10,000 entries are live. */
  lemma EvictionIsNeeded(m: Maps, order: seq<Id>, now: int, ttl: nat, a: Id)
    requires a in m && a !in Evicted(m, order, now, ttl)
    ensures |m| >= 10_000
    ensures now - m[a].lastAccess <= ttl ==> |set id | id in m && now - m[id].lastAccess <= ttl| >= 10_000
  {
    var live := WithoutStale(m, now, ttl);
    assert live.Keys == set id | id in m && now - m[id].lastAccess <= ttl;
  }

  lemma SubmapIsSmaller(small: Maps, large: Maps)
    requires small.Keys <= large.Keys
    ensures |small| <= |large|
  {
    assert large.Keys == small.Keys + (large.Keys - small.Keys);
  }

  // ---- Calls -------------------------------------------------------------------------------------------

  datatype Call =
    | GetOrCreate(id: Id, now: int, order: seq<Id>)
    | TryGet(id: Id, now: int)
    | Mark(id: Id, index: int, now: int, order: seq<Id>)
    | Remove(id: Id)

  ghost predicate Possible(m: Maps, call: Call) {
    (call.GetOrCreate? || call.Mark?) ==> Enumerates(call.order, m)
  }

  /** The entry that GetOrCreate leaves under its id. */
  function Touched(m: Maps, id: Id, now: int): Maps {
    m[id := Entry(if id in m then m[id].chunks else {}, now)]
  }

  function AfterMark(m: Maps, id: Id, index: int, now: int): Maps {
    var t := Touched(m, id, now);
    t[id := t[id].(chunks := t[id].chunks + {index})]
  }

  function Apply(m: Maps, call: Call, ttl: nat): Maps {
    match call
    case GetOrCreate(id, now, order) => Touched(Evicted(m, order, now, ttl), id, now)
    case TryGet(id, now) => if id !in m then m else if Stale(m[id], now, ttl) then m - {id} else Touched(m, id, now)
    case Mark(id, index, now, order) => AfterMark(Evicted(m, order, now, ttl), id, index, now)
    case Remove(id) => m - {id}
  }

  /** `id` has an entry and the call does not drop it, not even to create a new one in its place. */
  predicate Keeps(m: Maps, call: Call, ttl: nat, id: Id) {
    && id in m
    && match call
       case GetOrCreate(_, now, order) => id in Evicted(m, order, now, ttl)
       case Mark(_, _, now, order) => id in Evicted(m, order, now, ttl)
       case TryGet(other, now) => id != other || !Stale(m[id], now, ttl)
       case Remove(other) => id != other
  }

  lemma CapKept(m: Maps, call: Call, ttl: nat)
    requires |m| <= MAX_ENTRIES && Possible(m, call)
    ensures |Apply(m, call, ttl)| <= MAX_ENTRIES
  {
    match call
    case GetOrCreate(id, now, order) => EvictionMakesRoom(m, order, now, ttl);
    case Mark(id, index, now, order) => EvictionMakesRoom(m, order, now, ttl);
      var e := Evicted(m, order, now, ttl);
      assert AfterMark(e, id, index, now).Keys == e.Keys + {id};
    case TryGet(id, now) => SubmapIsSmaller(Apply(m, call, ttl), m);
    case Remove(id) => SubmapIsSmaller(Apply(m, call, ttl), m);
  }

  /** What one call does to what is known of one upload. */
  lemma CallOnChunks(m: Maps, call: Call, ttl: nat, id: Id)
    requires Possible(m, call) && id in Apply(m, call, ttl)
    ensures Apply(m, call, ttl)[id].chunks ==
      (if Keeps(m, call, ttl, id) then m[id].chunks else {}) + (if call.Mark? && call.id == id then {call.index} else {})
  {
    if call.GetOrCreate? || call.Mark? {
      EvictionIsFair(m, call.order, call.now, ttl);
    }
  }

  // ---- Runs --------------------------------------------------------------------------------------------

  ghost predicate IsRun(states: seq<Maps>, calls: seq<Call>, ttl: nat) {
    && |states| == |calls| + 1 && states[0] == map[]
    && forall k :: 0 <= k < |calls| ==> Possible(states[k], calls[k]) && states[k + 1] == Apply(states[k], calls[k], ttl)
  }

  lemma {:induction false} CapHolds(states: seq<Maps>, calls: seq<Call>, ttl: nat, k: nat)
    requires IsRun(states, calls, ttl) && k < |states|
    ensures |states[k]| <= 10_000
  {
    if k > 0 {
      CapHolds(states, calls, ttl, k - 1);
      CapKept(states[k - 1], calls[k - 1], ttl);
      assert states[k - 1 + 1] == Apply(states[k - 1], calls[k - 1], ttl);
    }
  }

  /** Call `j` marks chunk `i` of `id`, and every later call before state `k` keeps that entry. */
  ghost predicate MarkedSince(states: seq<Maps>, calls: seq<Call>, ttl: nat, id: Id, i: int, j: nat, k: nat)
    requires |states| == |calls| + 1 && k < |states|
  {
    && j < k && calls[j].Mark? && calls[j].id == id && calls[j].index == i
    && forall l :: j < l < k ==> Keeps(states[l], calls[l], ttl, id)
  }

  /** In every state of every run, an entry holds exactly the indexes marked since it was created. */
  lemma {:induction false} ChunksAreTheMarksSinceCreation(states: seq<Maps>, calls: seq<Call>, ttl: nat, k: nat, id: Id, i: int)
    requires IsRun(states, calls, ttl) && k < |states| && id in states[k]
    ensures i in states[k][id].chunks <==> exists j: nat :: MarkedSince(states, calls, ttl, id, i, j, k)
  {
    if k > 0 {
      var m, call := states[k - 1], calls[k - 1];
      assert states[k - 1 + 1] == Apply(m, call, ttl);
      CallOnChunks(m, call, ttl, id);
      if Keeps(m, call, ttl, id) {
        ChunksAreTheMarksSinceCreation(states, calls, ttl, k - 1, id, i);
        if i in m[id].chunks {
          var j: nat :| MarkedSince(states, calls, ttl, id, i, j, k - 1);
          assert MarkedSince(states, calls, ttl, id, i, j, k);
        }
      }
      if call.Mark? && call.id == id && call.index == i {
        assert MarkedSince(states, calls, ttl, id, i, k - 1, k);
      }
      forall j: nat | MarkedSince(states, calls, ttl, id, i, j, k)
        ensures i in states[k][id].chunks
      {
        if j < k - 1 {
          assert Keeps(states[k - 1], calls[k - 1], ttl, id);
          assert MarkedSince(states, calls, ttl, id, i, j, k - 1);
        }
      }
    }
  }

  // ---- The class ---------------------------------------------------------------------------------------

  /** The product of 32-bit integers, unchecked. */
  function Wrap32(x: int): int { (x + 0x8000_0000) % 0x1_0000_0000 - 0x8000_0000 }

  function LifetimeMinutes(seconds: int): nat {
    var minutes := Wrap32(seconds * 20);
    if minutes < 5 then 5 else if minutes > 60 then 60 else minutes
  }

  /**
   The lifetime is never the ten minutes that the source speaks of; up to the first setting whose product wraps it is an
   hour exactly from three seconds on, and at that setting it falls back to five minutes.
   */
  lemma LifetimeIsNeverTenMinutes(seconds: int)
    requires -0x8000_0000 <= seconds < 0x8000_0000
    ensures LifetimeMinutes(seconds) != 10
    ensures -107_374_182 <= seconds <= 107_374_182 ==> (LifetimeMinutes(seconds) == 60 <==> seconds >= 3)
    ensures -107_374_182 <= seconds <= 0 ==> LifetimeMinutes(seconds) == 5
    ensures LifetimeMinutes(1) == 20 && LifetimeMinutes(2) == 40 && LifetimeMinutes(107_374_183) == 5
  {
    var wraps := (seconds * 20 + 0x8000_0000) / 0x1_0000_0000;
    assert Wrap32(seconds * 20) == seconds * 20 - wraps * 0x1_0000_0000;
    assert Wrap32(seconds * 20) % 4 == 0;
  }

  class ReceivedChunkCache {
    var maps: Maps
    const ttl: nat

    /** Times are in seconds: the setting times twenty in 32 bits, taken as minutes and clamped to 5..60. */
    constructor (sessionCacheTtlSeconds: int)
      requires -0x8000_0000 <= sessionCacheTtlSeconds < 0x8000_0000
      ensures maps == map[] && ttl == 60 * LifetimeMinutes(sessionCacheTtlSeconds)
    {
      maps := map[];
      var minutes := Wrap32(sessionCacheTtlSeconds * 20);
      ttl := 60 * (if minutes < 5 then 5 else if minutes > 60 then 60 else minutes);
    }

    method RemoveStale(order: seq<Id>, now: int)
      requires Enumerates(order, maps)
      modifies this`maps
      ensures maps == WithoutStale(old(maps), now, ttl)
    {
      ghost var before := maps;
      var i := 0;
      while i < |order|
        invariant i <= |order|
        invariant maps.Keys <= before.Keys
        invariant forall id :: id in maps ==> maps[id] == before[id]
        invariant forall k :: 0 <= k < i ==> (order[k] in maps <==> !Stale(before[order[k]], now, ttl))
        invariant forall k :: i <= k < |order| ==> order[k] in maps
      {
        if Stale(maps[order[i]], now, ttl) {
          maps := maps - {order[i]};
        }
        i := i + 1;
      }
    }

    method RemoveAll(ids: seq<Id>)
      modifies this`maps
      ensures maps == old(maps) - set x | x in ids
    {
      ghost var before := maps;
      var j := 0;
      while j < |ids|
        invariant j <= |ids|
        invariant forall id :: id in maps <==> id in before && id !in ids[..j]
        invariant forall id :: id in maps ==> maps[id] == before[id]
      {
        maps := maps - {ids[j]};
        j := j + 1;
      }
      assert ids[..j] == ids;
    }

    method EvictIfNeeded(order: seq<Id>, now: int)
      requires Enumerates(order, maps)
      modifies this`maps
      ensures maps == Evicted(old(maps), order, now, ttl)
    {
      if |maps| < MAX_ENTRIES {
        return;
      }
      RemoveStale(order, now);
      if |maps| >= MAX_ENTRIES {
        RemainingIsPresent(order, maps);
        var sorted := ByAccess(maps, Remaining(order, maps));
        RemoveAll(sorted[..|sorted| / 2]);
      }
    }

    method GetOrCreateEntry(id: Id, now: int, order: seq<Id>) returns (chunks: set<int>)
      requires Enumerates(order, maps)
      modifies this`maps
      ensures maps == Apply(old(maps), GetOrCreate(id, now, order), ttl) && id in maps && chunks == maps[id].chunks
    {
      EvictIfNeeded(order, now);
      if id in maps {
        maps := maps[id := maps[id].(lastAccess := now)];
      } else {
        maps := maps[id := Entry({}, now)];
      }
      chunks := maps[id].chunks;
    }

    method TryGetChunks(id: Id, now: int) returns (found: Option<set<int>>)
      modifies this`maps
      ensures maps == Apply(old(maps), TryGet(id, now), ttl)
      ensures found.Some? <==> id in old(maps) && now - old(maps)[id].lastAccess <= ttl
      ensures found.Some? ==> found.value == old(maps)[id].chunks && maps == old(maps)[id := Entry(found.value, now)]
      ensures found.None? ==> maps == old(maps) - {id}
    {
      if id !in maps {
        return None;
      }
      if Stale(maps[id], now, ttl) {
        maps := maps - {id};
        return None;
      }
      maps := maps[id := maps[id].(lastAccess := now)];
      return Some(maps[id].chunks);
    }

    method MarkChunk(id: Id, index: int, now: int, order: seq<Id>)
      requires Enumerates(order, maps)
      modifies this`maps
      ensures maps == Apply(old(maps), Mark(id, index, now, order), ttl)
    {
      var chunks := GetOrCreateEntry(id, now, order);
      maps := maps[id := maps[id].(chunks := chunks + {index})];
    }

    method RemoveEntry(id: Id)
      modifies this`maps
      ensures maps == Apply(old(maps), Remove(id), ttl)
    {
      maps := maps - {id};
    }
  }
}
