/**
  The configuration cache: parsed configuration snapshots keyed by absolute
  path, each checked on lookup against its age, the file's existence, its
  modification time and its content hash, and bounded in number by evicting
  the least recently accessed entry.

  The clock is the `now` parameter (whole seconds) and the filesystem is the
  `FileView` the caller observed at that moment.
*/
module ConfigCache {
  import opened Common

  /** One cached configuration. `configData` is the opaque parsed snapshot. */
  datatype CacheEntry<C> = CacheEntry(
    configData: C,
    fileHash: string,
    fileMtime: int,
    cacheTime: int,
    accessCount: int,
    lastAccess: int)

  datatype CacheStats = CacheStats(hits: nat, misses: nat, invalidations: nat, evictions: nat)

  /** What the filesystem reports for a path: missing, or present with its
      modification time and the hex digest of its content (None when the
      content cannot be read). */
  datatype FileView = Missing | Present(mtime: int, digest: Option<string>)

  /** The outcome of validating a cached entry; the checks run in this order. */
  datatype Verdict = Hit | Expired | FileMissing | MtimeChanged | HashChanged

  /** The content hash of a file; "" when it cannot be opened or read. */
  function FileHash(f: FileView): (h: string)
    ensures f.Present? && f.digest.Some? ==> h == f.digest.value
    ensures h != "" ==> f.Present? && f.digest == Some(h)
  {
    if f.Present? && f.digest.Some? then f.digest.value else ""
  }

  /** The four validity checks of a lookup, in the order the cache applies them. */
  function Validate<C>(e: CacheEntry<C>, f: FileView, now: int, ttl: int): (v: Verdict)
    ensures v == Hit <==>
      now - e.cacheTime <= ttl && f.Present? && f.mtime == e.fileMtime && FileHash(f) == e.fileHash
    ensures v == Expired <==> now - e.cacheTime > ttl
    ensures v == FileMissing <==> now - e.cacheTime <= ttl && f.Missing?
    ensures v == MtimeChanged <==> now - e.cacheTime <= ttl && f.Present? && f.mtime != e.fileMtime
  {
    if now - e.cacheTime > ttl then Expired
    else if f.Missing? then FileMissing
    else if f.mtime != e.fileMtime then MtimeChanged
    else if FileHash(f) != e.fileHash then HashChanged
    else Hit
  }

  /** The entry `cache_config` builds; a missing file gives hash "" and mtime 0. */
  function NewEntry<C>(config: C, f: FileView, now: int): (e: CacheEntry<C>)
    ensures e.configData == config && e.fileHash == FileHash(f)
    ensures e.fileMtime == (if f.Present? then f.mtime else 0)
    ensures e.cacheTime == now && e.lastAccess == now && e.accessCount == 1
  {
    var hash := if f.Present? then FileHash(f) else "";
    var mtime := if f.Present? then f.mtime else 0;
    CacheEntry(config, hash, mtime, now, 1, now)
  }

  /** `k` is a key whose entry has the smallest `lastAccess`. */
  ghost predicate IsOldest<C>(m: map<string, CacheEntry<C>>, k: string)
  {
    k in m && forall j :: j in m ==> m[k].lastAccess <= m[j].lastAccess
  }

  /** An entry `optimize_cache` drops: older than the TTL, or idle for more than half of it. */
  predicate IsStale<C>(e: CacheEntry<C>, now: int, ttl: int)
  {
    now - e.cacheTime > ttl || 2 * (now - e.lastAccess) > ttl
  }

  function StaleKeys<C>(m: map<string, CacheEntry<C>>, now: int, ttl: int): set<string>
  {
    set k | k in m && IsStale(m[k], now, ttl)
  }

  /** An entry stored from a file and looked up while the file is unchanged is a hit
      until its age passes the TTL, even when the file could not be read either time
      (both hashes are then ""). An entry stored for a missing file is never a hit
      while the file stays missing, and only hits if the file later appears with
      mtime 0 and unreadable content. */
  lemma StoredEntryValidation<C>(config: C, f: FileView, g: FileView, stored: int, now: int, ttl: int)
    ensures f.Present? ==>
      (Validate(NewEntry(config, f, stored), f, now, ttl) == Hit <==> now - stored <= ttl)
    ensures f.Missing? ==>
      (Validate(NewEntry(config, f, stored), g, now, ttl) == Hit <==>
        now - stored <= ttl && g.Present? && g.mtime == 0 && FileHash(g) == "")
  {
  }

  /** Choose a least recently accessed key, as Python's `min(keys, key=last_access)`. */
  method OldestKey<C>(m: map<string, CacheEntry<C>>) returns (k: string)
    requires m != map[]
    ensures IsOldest(m, k)
  {
    var rest := m.Keys;
    k :| k in rest;
    rest := rest - {k};
    while rest != {}
      invariant rest <= m.Keys && k in m
      invariant forall j :: j in m && j !in rest ==> m[k].lastAccess <= m[j].lastAccess
      decreases rest
    {
      var j :| j in rest;
      if m[j].lastAccess < m[k].lastAccess {
        k := j;
      }
      rest := rest - {j};
    }
  }

  /** Removing a subset takes away exactly that many elements. */
  lemma CardinalityOfDifference<T>(a: set<T>, b: set<T>)
    requires b <= a
    ensures |a - b| + |b| == |a|
  {
    assert a == (a - b) + b;
    assert (a - b) * b == {};
  }

  class ConfigurationCache<C> {
    const maxCacheSize: int
    const cacheTtl: int
    var cache: map<string, CacheEntry<C>>
    var stats: CacheStats

    /** The size bound: never more entries than the maximum, except that a
        maximum below 1 still lets one entry in (eviction of an empty cache
        does nothing, and the insertion follows). */
    ghost predicate Valid()
      reads this
    {
      |cache| <= Max(maxCacheSize, 1)
    }

    constructor (maxCacheSize: int, cacheTtl: int)
      ensures Valid()
      ensures this.maxCacheSize == maxCacheSize && this.cacheTtl == cacheTtl
      ensures cache == map[] && stats == CacheStats(0, 0, 0, 0)
    {
      this.maxCacheSize := maxCacheSize;
      this.cacheTtl := cacheTtl;
      cache := map[];
      stats := CacheStats(0, 0, 0, 0);
    }

    /** `get_config`: a hit only when all four checks pass; any failed check
        deletes the entry and counts one invalidation and one miss. */
    method GetConfig(key: string, f: FileView, now: int) returns (r: Option<C>)
      requires Valid()
      modifies this
      ensures Valid()
      ensures key !in old(cache) ==>
        r == None && cache == old(cache) && stats == old(stats).(misses := old(stats).misses + 1)
      ensures key in old(cache) && Validate(old(cache)[key], f, now, cacheTtl) == Hit ==>
        var e := old(cache)[key];
        && r == Some(e.configData)
        && cache == old(cache)[key := e.(accessCount := e.accessCount + 1, lastAccess := now)]
        && stats == old(stats).(hits := old(stats).hits + 1)
      ensures key in old(cache) && Validate(old(cache)[key], f, now, cacheTtl) != Hit ==>
        && r == None
        && cache == old(cache) - {key}
        && stats == old(stats).(invalidations := old(stats).invalidations + 1, misses := old(stats).misses + 1)
    {
      if key !in cache {
        stats := stats.(misses := stats.misses + 1);
        return None;
      }
      var e := cache[key];
      var v := Validate(e, f, now, cacheTtl);
      if v != Hit {
        cache := cache - {key};
        stats := stats.(invalidations := stats.invalidations + 1, misses := stats.misses + 1);
        return None;
      }
      cache := cache[key := e.(accessCount := e.accessCount + 1, lastAccess := now)];
      stats := stats.(hits := stats.hits + 1);
      r := Some(e.configData);
    }

    /** `_evict_oldest_entry`: nothing on an empty cache; otherwise one least
        recently accessed entry goes and `evictions` goes up by one. */
    method EvictOldestEntry() returns (ghost evicted: Option<string>)
      modifies this
      ensures old(cache) == map[] ==> evicted == None && cache == old(cache) && stats == old(stats)
      ensures old(cache) != map[] ==>
        && evicted.Some? && IsOldest(old(cache), evicted.value)
        && cache == old(cache) - {evicted.value}
        && stats == old(stats).(evictions := old(stats).evictions + 1)
    {
      if cache == map[] {
        return None;
      }
      var k := OldestKey(cache);
      cache := cache - {k};
      stats := stats.(evictions := stats.evictions + 1);
      evicted := Some(k);
    }

    /** `cache_config`: a full cache (size at least the maximum) first evicts one
        least recently accessed entry, even when `key` is already present; then
        the new entry is stored under `key`. */
    method CacheConfig(key: string, config: C, f: FileView, now: int)
      requires Valid()
      modifies this
      ensures Valid()
      ensures |old(cache)| >= maxCacheSize && old(cache) != map[] ==>
        && (exists v :: IsOldest(old(cache), v) && cache == (old(cache) - {v})[key := NewEntry(config, f, now)])
        && stats == old(stats).(evictions := old(stats).evictions + 1)
      ensures !(|old(cache)| >= maxCacheSize && old(cache) != map[]) ==>
        cache == old(cache)[key := NewEntry(config, f, now)] && stats == old(stats)
      ensures key in cache && cache[key].accessCount == 1 && cache[key].lastAccess == now
      ensures f.Missing? ==> cache[key].fileHash == "" && cache[key].fileMtime == 0
    {
      var entry := NewEntry(config, f, now);
      if |cache| >= maxCacheSize {
        ghost var evicted := EvictOldestEntry();
        if evicted.Some? {
          assert (old(cache) - {evicted.value}).Keys == old(cache).Keys - {evicted.value};
        }
      }
      cache := cache[key := entry];
    }

    /** `clear_cache`: every entry goes; the counters stay. */
    method ClearCache()
      modifies this
      ensures Valid()
      ensures cache == map[] && stats == old(stats)
    {
      cache := map[];
    }

    /** The first loop of `optimize_cache`: collects the keys of the stale entries. */
    method CollectStale(now: int) returns (staleKeys: set<string>)
      ensures staleKeys == StaleKeys(cache, now, cacheTtl)
    {
      staleKeys := {};
      var unseen := cache.Keys;
      while unseen != {}
        invariant unseen <= cache.Keys
        invariant staleKeys == set k | k in cache && k !in unseen && IsStale(cache[k], now, cacheTtl)
        decreases unseen
      {
        var k :| k in unseen;
        if IsStale(cache[k], now, cacheTtl) {
          staleKeys := staleKeys + {k};
        }
        unseen := unseen - {k};
      }
    }

    /** The second loop of `optimize_cache`: deletes the given keys. */
    method RemoveKeys(keys: set<string>)
      modifies this
      ensures cache == old(cache) - keys && stats == old(stats)
    {
      var pending := keys;
      while pending != {}
        invariant pending <= keys
        invariant cache == old(cache) - (keys - pending) && stats == old(stats)
        decreases pending
      {
        var k :| k in pending;
        cache := cache - {k};
        pending := pending - {k};
      }
      assert keys - pending == keys;
    }

    /** `optimize_cache`: removes exactly the stale entries, leaves the counters,
        and reports how many went and how many remain. */
    method OptimizeCache(now: int) returns (removed: nat, remaining: nat)
      requires Valid()
      modifies this
      ensures Valid()
      ensures cache == old(cache) - StaleKeys(old(cache), now, cacheTtl)
      ensures stats == old(stats)
      ensures removed == |StaleKeys(old(cache), now, cacheTtl)| && remaining == |cache|
      ensures removed + remaining == |old(cache)|
    {
      var staleKeys := CollectStale(now);
      RemoveKeys(staleKeys);
      CardinalityOfDifference(old(cache).Keys, staleKeys);
      assert cache.Keys == old(cache).Keys - staleKeys;
      removed := |staleKeys|;
      remaining := |cache|;
    }
  }

  /** `load_config_cached`: a valid cached entry is returned and its access
      recorded; otherwise the lookup counts a miss (and an invalidation when a
      stale entry was dropped) and the configuration is built from the file.
      `loaded` is that build: `None` when the `Config` constructor raises, in
      which case the exception reaches the caller and nothing is stored;
      otherwise the configuration is cached, evicting a least recently accessed
      entry when the cache is full, and returned. Both clock reads are `now`. */
  method LoadConfigCached<C>(c: ConfigurationCache<C>, key: string, f: FileView, now: int, loaded: Option<C>)
    returns (config: Option<C>)
    requires c.Valid()
    modifies c
    ensures c.Valid()
    ensures config.Some? <==> key in c.cache
    ensures key in old(c.cache) && Validate(old(c.cache)[key], f, now, c.cacheTtl) == Hit ==>
      var e := old(c.cache)[key];
      && config == Some(e.configData)
      && c.cache == old(c.cache)[key := e.(accessCount := e.accessCount + 1, lastAccess := now)]
      && c.stats == old(c.stats).(hits := old(c.stats).hits + 1)
    ensures !(key in old(c.cache) && Validate(old(c.cache)[key], f, now, c.cacheTtl) == Hit) ==>
      var rest := old(c.cache) - {key};
      var counted := old(c.stats).(misses := old(c.stats).misses + 1,
        invalidations := old(c.stats).invalidations + if key in old(c.cache) then 1 else 0);
      && config == loaded
      && (loaded.None? ==> c.cache == rest && c.stats == counted)
      && (loaded.Some? && |rest| >= c.maxCacheSize && rest != map[] ==>
            && (exists v :: IsOldest(rest, v) && c.cache == (rest - {v})[key := NewEntry(loaded.value, f, now)])
            && c.stats == counted.(evictions := counted.evictions + 1))
      && (loaded.Some? && !(|rest| >= c.maxCacheSize && rest != map[]) ==>
            c.cache == rest[key := NewEntry(loaded.value, f, now)] && c.stats == counted)
  {
    var cached := c.GetConfig(key, f, now);
    if cached.Some? {
      return cached;
    }
    assert c.cache == old(c.cache) - {key};
    if loaded.None? {
      return None;
    }
    c.CacheConfig(key, loaded.value, f, now);
    config := loaded;
  }
}
