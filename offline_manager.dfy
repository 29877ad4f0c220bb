/** The offline manager: a route cache kept both in memory and in the
    browser's key-value storage, with an expiry time per entry and lazy
    deletion of expired entries, a sweep of expired stored routes, and a
    trail of the last 100 GPS fixes mirrored to storage. The clock is a
    parameter `now` (milliseconds); storage is a map from keys to the
    parsed form of the stored JSON text. */
module OfflineManager {
  import opened Common
  import opened Geo

  const RoutePrefix := "route_"
  const TrailKey := "gps_trail"
  const TrailCapacity: nat := 100

  /** A fix as the trail stores it. */
  datatype GpsFix = GpsFix(latitude: real, longitude: real, accuracy: real, timestamp: int)

  /** A position as the geolocation API reports it; the timestamp may be missing. */
  datatype GpsReading = GpsReading(latitude: real, longitude: real, accuracy: real, timestamp: Option<int>)

  datatype CacheItem = CacheItem(data: Route, timestamp: int, expires: int)

  /** What `JSON.parse` makes of a stored value: a cached route, a GPS
      trail, or text that does not parse (including the empty string). */
  datatype Stored = RouteEntry(item: CacheItem) | Trail(fixes: seq<GpsFix>) | Unparseable

  function RouteKey(key: string): (k: string)
    ensures StartsWith(k, RoutePrefix) && k[|RoutePrefix|..] == key
  {
    RoutePrefix + key
  }

  lemma RouteKeyInjective(a: string, b: string)
    ensures RouteKey(a) == RouteKey(b) ==> a == b
  {
    if RouteKey(a) == RouteKey(b) {
      assert a == RouteKey(a)[|RoutePrefix|..];
    }
  }

  // ---------------------------------------------------------------------
  // Route lookup

  datatype Lookup = Lookup(result: Option<Route>, memory: map<string, CacheItem>, storage: map<string, Stored>)

  /** `getCachedRoute`: a live memory entry answers; an expired one is
      deleted. Then a live stored entry answers and is copied to memory; a
      stored value that is expired or not a cached route is removed; text
      that does not parse is left alone. */
  function CachedRouteLookup(memory: map<string, CacheItem>, storage: map<string, Stored>,
                             key: string, now: int): (l: Lookup)
    ensures var ck := RouteKey(key);
      l.result.Some? ==>
        (ck in memory && memory[ck].expires > now && l.result.value == memory[ck].data)
        || (ck in storage && storage[ck].RouteEntry? && storage[ck].item.expires > now
            && l.result.value == storage[ck].item.data && ck in l.memory && l.memory[ck] == storage[ck].item)
    ensures var ck := RouteKey(key);
      l.result.None? ==> ck !in l.memory && (ck in l.storage ==> l.storage[ck] == Unparseable)
    ensures var ck := RouteKey(key);
      forall k :: k != ck ==>
        (k in l.memory <==> k in memory) && (k in memory ==> l.memory[k] == memory[k])
        && (k in l.storage <==> k in storage) && (k in storage ==> l.storage[k] == storage[k])
  {
    var ck := RouteKey(key);
    if ck in memory && memory[ck].expires > now then Lookup(Some(memory[ck].data), memory, storage)
    else
      var mem := memory - {ck};
      if ck !in storage then Lookup(None, mem, storage)
      else match storage[ck]
        case RouteEntry(item) =>
          if item.expires > now then Lookup(Some(item.data), mem[ck := item], storage)
          else Lookup(None, mem, storage - {ck})
        case Trail(_) => Lookup(None, mem, storage - {ck})
        case Unparseable => Lookup(None, mem, storage)
  }

  /** The entry `cacheRoute` writes. */
  function NewItem(routeData: Route, now: int, maxCacheAge: int): CacheItem {
    CacheItem(routeData, now, now + maxCacheAge)
  }

  /** Round trip: once cached in memory, a route comes back until the
      entry expires, whatever storage holds. */
  lemma CacheThenGet(memory: map<string, CacheItem>, storage: map<string, Stored>, key: string,
                     routeData: Route, t: int, maxCacheAge: int, now: int)
    requires now < t + maxCacheAge
    ensures CachedRouteLookup(memory[RouteKey(key) := NewItem(routeData, t, maxCacheAge)], storage,
                              key, now).result == Some(routeData)
  {
  }

  /** From storage alone (memory lost on reload) a live entry comes back
      and is put back in memory. */
  lemma StoredHitRepopulates(storage: map<string, Stored>, key: string, item: CacheItem, now: int)
    requires now < item.expires
    ensures var l := CachedRouteLookup(map[], storage[RouteKey(key) := RouteEntry(item)], key, now);
      l.result == Some(item.data) && l.memory == map[RouteKey(key) := item]
  {
    var ck := RouteKey(key);
    var empty: map<string, CacheItem> := map[];
    assert empty - {ck} == empty;
  }

  /** An entry whose expiry time is now is no longer returned. */
  lemma ExpiredAtNow(memory: map<string, CacheItem>, storage: map<string, Stored>, key: string, item: CacheItem)
    requires RouteKey(key) in memory ==> memory[RouteKey(key)] == item
    requires RouteKey(key) in storage ==> storage[RouteKey(key)] == RouteEntry(item)
    ensures CachedRouteLookup(memory, storage, key, item.expires).result.None?
  {
  }

  // ---------------------------------------------------------------------
  // Sweeping and clearing storage

  /** The stored entries the sweep removes: routes whose expiry time has
      passed. Values that do not parse, or have no expiry time, stay. */
  predicate ExpiredRoute(k: string, v: Stored, now: int) {
    StartsWith(k, RoutePrefix) && v.RouteEntry? && v.item.expires < now
  }

  /** `cleanupExpiredCache` on storage, as a filter over its keys. */
  function SweepExpired(storage: map<string, Stored>, now: int): (r: map<string, Stored>)
    ensures forall k :: k in r <==> k in storage && !ExpiredRoute(k, storage[k], now)
    ensures forall k :: k in r ==> r[k] == storage[k]
  {
    map k | k in storage && !ExpiredRoute(k, storage[k], now) :: storage[k]
  }

  /** The keys `clearAllCache` removes. */
  predicate ClearedKey(k: string) {
    StartsWith(k, RoutePrefix) || k == TrailKey
  }

  function ClearStorage(storage: map<string, Stored>): (r: map<string, Stored>)
    ensures forall k :: k in r <==> k in storage && !ClearedKey(k)
    ensures forall k :: k in r ==> r[k] == storage[k]
  {
    map k | k in storage && !ClearedKey(k) :: storage[k]
  }

  /** The live cached routes in storage, by storage key. */
  function LiveRoutes(storage: map<string, Stored>, now: int): (r: map<string, CacheItem>)
    ensures forall k :: k in r <==>
      k in storage && StartsWith(k, RoutePrefix) && storage[k].RouteEntry? && storage[k].item.expires > now
    ensures forall k :: k in r ==> RouteEntry(r[k]) == storage[k]
  {
    map k | k in storage && StartsWith(k, RoutePrefix) && storage[k].RouteEntry?
              && storage[k].item.expires > now :: storage[k].item
  }

  /** A sweep never removes an entry a lookup at the same time would
      still return, and a swept storage has no expired route left. */
  lemma SweepKeepsLive(storage: map<string, Stored>, now: int, k: string)
    requires k in storage
    ensures k in LiveRoutes(storage, now) ==> k in SweepExpired(storage, now)
    ensures k in SweepExpired(storage, now) ==> !ExpiredRoute(k, SweepExpired(storage, now)[k], now)
  {
  }

  // ---------------------------------------------------------------------
  // The GPS trail

  /** The fix recorded for a reading: a missing or zero timestamp is replaced by now. */
  function FixOf(r: GpsReading, now: int): GpsFix {
    GpsFix(r.latitude, r.longitude, r.accuracy,
           if r.timestamp.Some? && r.timestamp.value != 0 then r.timestamp.value else now)
  }

  // ---------------------------------------------------------------------
  // The module's state

  class OfflineCache {
    var cacheAvailable: bool
    var routeCache: map<string, CacheItem>
    var gpsCache: seq<GpsFix>
    /** The browser's key-value storage, as seen by this module. */
    var storage: map<string, Stored>

    /** `cacheAvailable` is the outcome of opening the cache store. */
    constructor(cacheAvailable: bool, storage: map<string, Stored>)
      ensures this.cacheAvailable == cacheAvailable && this.storage == storage
      ensures routeCache == map[] && gpsCache == []
    {
      this.cacheAvailable := cacheAvailable;
      this.storage := storage;
      routeCache := map[];
      gpsCache := [];
    }

    /** `cacheRoute`: nothing without a cache. Otherwise the entry goes to
        memory and then to storage; when the storage write fails the memory
        entry stays and the answer is false. */
    method CacheRoute(key: string, routeData: Route, now: int, maxCacheAge: int, storageFails: bool)
      returns (ok: bool)
      modifies this
      ensures ok == (old(cacheAvailable) && !storageFails)
      ensures !old(cacheAvailable) ==> routeCache == old(routeCache) && storage == old(storage)
      ensures old(cacheAvailable) ==>
        routeCache == old(routeCache)[RouteKey(key) := NewItem(routeData, now, maxCacheAge)]
      ensures old(cacheAvailable) && !storageFails ==>
        storage == old(storage)[RouteKey(key) := RouteEntry(NewItem(routeData, now, maxCacheAge))]
      ensures storageFails ==> storage == old(storage)
      ensures gpsCache == old(gpsCache) && cacheAvailable == old(cacheAvailable)
    {
      if !cacheAvailable {
        return false;
      }
      var cacheKey := RouteKey(key);
      var cacheItem := NewItem(routeData, now, maxCacheAge);
      routeCache := routeCache[cacheKey := cacheItem];
      if storageFails {
        return false;
      }
      storage := storage[cacheKey := RouteEntry(cacheItem)];
      ok := true;
    }

    /** `getCachedRoute`: the answer and both maps afterwards are those of
        `CachedRouteLookup`. */
    method GetCachedRoute(key: string, now: int) returns (r: Option<Route>)
      modifies this
      ensures Lookup(r, routeCache, storage) == CachedRouteLookup(old(routeCache), old(storage), key, now)
      ensures gpsCache == old(gpsCache) && cacheAvailable == old(cacheAvailable)
    {
      var cacheKey := RouteKey(key);
      if cacheKey in routeCache {
        var cached := routeCache[cacheKey];
        if cached.expires > now {
          return Some(cached.data);
        }
        routeCache := routeCache - {cacheKey};
      }
      if cacheKey in storage {
        match storage[cacheKey]
        case RouteEntry(cached) =>
          if cached.expires > now {
            routeCache := routeCache[cacheKey := cached];
            return Some(cached.data);
          }
          storage := storage - {cacheKey};
        case Trail(_) =>
          storage := storage - {cacheKey};
        case Unparseable =>
      }
      r := None;
    }

    /** `cacheGPSPosition`: the fix is appended and the trail cut to its last
        100 fixes, then mirrored to storage; when the storage write fails
        the trail in memory is already updated and the answer is false. */
    method CacheGPSPosition(reading: GpsReading, now: int, storageFails: bool) returns (ok: bool)
      modifies this
      ensures gpsCache == LastN(old(gpsCache) + [FixOf(reading, now)], TrailCapacity)
      ensures ok == !storageFails
      ensures ok ==> storage == old(storage)[TrailKey := Trail(gpsCache)]
      ensures !ok ==> storage == old(storage)
      ensures routeCache == old(routeCache) && cacheAvailable == old(cacheAvailable)
    {
      gpsCache := gpsCache + [FixOf(reading, now)];
      if |gpsCache| > TrailCapacity {
        gpsCache := gpsCache[|gpsCache| - TrailCapacity..];
      }
      if storageFails {
        return false;
      }
      storage := storage[TrailKey := Trail(gpsCache)];
      ok := true;
    }

    /** `getLastKnownPosition`: the newest fix in memory, else the newest
        fix of the stored trail (which then becomes the trail in memory),
        else nothing. */
    method GetLastKnownPosition() returns (r: Option<GpsFix>)
      modifies this
      ensures old(gpsCache) != [] ==> r == Some(old(gpsCache)[|old(gpsCache)| - 1]) && gpsCache == old(gpsCache)
      ensures old(gpsCache) == [] && TrailKey in storage && storage[TrailKey].Trail? ==>
        gpsCache == storage[TrailKey].fixes
        && (r.Some? <==> gpsCache != []) && (r.Some? ==> r.value == gpsCache[|gpsCache| - 1])
      ensures old(gpsCache) == [] && !(TrailKey in storage && storage[TrailKey].Trail?) ==>
        r.None? && gpsCache == old(gpsCache)
      ensures storage == old(storage) && routeCache == old(routeCache) && cacheAvailable == old(cacheAvailable)
    {
      if |gpsCache| > 0 {
        return Some(gpsCache[|gpsCache| - 1]);
      }
      if TrailKey in storage && storage[TrailKey].Trail? {
        gpsCache := storage[TrailKey].fixes;
        if |gpsCache| > 0 {
          return Some(gpsCache[|gpsCache| - 1]);
        }
      }
      r := None;
    }

    /** `cleanupExpiredCache`: expired stored routes leave storage and the
        memory map; an expired route held only in memory stays there. */
    method CleanupExpiredCache(now: int)
      modifies this
      ensures storage == SweepExpired(old(storage), now)
      ensures routeCache == map k | k in old(routeCache)
                 && !(k in old(storage) && ExpiredRoute(k, old(storage)[k], now)) :: old(routeCache)[k]
      ensures gpsCache == old(gpsCache) && cacheAvailable == old(cacheAvailable)
    {
      var removed := set k | k in storage && ExpiredRoute(k, storage[k], now);
      storage := SweepExpired(storage, now);
      routeCache := map k | k in routeCache && k !in removed :: routeCache[k];
    }

    /** `loadCachedData`: every live stored route is copied to memory, and
        the names it was cached under are returned. */
    method LoadCachedData(now: int) returns (names: set<string>)
      modifies this
      ensures routeCache == old(routeCache) + LiveRoutes(storage, now)
      ensures names == set k | k in LiveRoutes(storage, now) :: k[|RoutePrefix|..]
      ensures forall n :: n in names ==> RouteKey(n) in LiveRoutes(storage, now)
      ensures storage == old(storage) && gpsCache == old(gpsCache) && cacheAvailable == old(cacheAvailable)
    {
      var live := LiveRoutes(storage, now);
      routeCache := routeCache + live;
      names := set k | k in live :: k[|RoutePrefix|..];
      forall n | n in names ensures RouteKey(n) in live {
        var k :| k in live && n == k[|RoutePrefix|..];
        assert k == RoutePrefix + k[|RoutePrefix|..];
      }
    }

    /** `clearAllCache`: memory map and trail emptied, and every stored
        `route_*` key and the trail key removed; other keys untouched. */
    method ClearAllCache() returns (ok: bool)
      modifies this
      ensures ok
      ensures routeCache == map[] && gpsCache == []
      ensures storage == ClearStorage(old(storage))
      ensures cacheAvailable == old(cacheAvailable)
    {
      routeCache := map[];
      gpsCache := [];
      var keysToRemove := set k | k in storage && ClearedKey(k);
      storage := map k | k in storage && k !in keysToRemove :: storage[k];
      ok := true;
    }
  }

  // ---------------------------------------------------------------------
  // The sweep as the loop over storage indices runs it

  /** The loop of `cleanupExpiredCache`: storage keys in index order, the
      index advancing after every key even when that key was just removed,
      which moves the following key down into the index already passed. */
  function SweepByIndex(keys: seq<string>, i: nat, storage: map<string, Stored>, now: int): map<string, Stored>
    decreases |keys| - i
  {
    if i >= |keys| then storage
    else
      var k := keys[i];
      if k in storage && ExpiredRoute(k, storage[k], now)
      then SweepByIndex(keys[..i] + keys[i + 1..], i + 1, storage - {k}, now)
      else SweepByIndex(keys, i + 1, storage, now)
  }

  /** Two adjacent expired routes: the index loop leaves the second. */
  lemma SweepByIndexSkips(r: Route)
    ensures var old1 := CacheItem(r, 0, 1);
      var storage := map["route_a" := RouteEntry(old1), "route_b" := RouteEntry(old1)];
      "route_b" in SweepByIndex(["route_a", "route_b"], 0, storage, 5)
      && "route_b" !in SweepExpired(storage, 5)
  {
    var old1 := CacheItem(r, 0, 1);
    var storage := map["route_a" := RouteEntry(old1), "route_b" := RouteEntry(old1)];
    assert StartsWith("route_a", RoutePrefix) && StartsWith("route_b", RoutePrefix);
    assert "route_a" != "route_b";
    var s1 := storage - {"route_a"};
    assert "route_b" in s1;
    assert SweepByIndex(["route_a", "route_b"], 0, storage, 5)
        == SweepByIndex(["route_b"], 1, s1, 5) == s1;
  }
}
