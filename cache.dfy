/**
 * The in-memory TTL cache of the AI service.  Entries live in a dictionary
 * keyed by string; an entry is expired once the clock is strictly past its
 * expiry time, and `get` deletes an expired entry when it meets one.  Time is
 * the integer parameter `now` wherever the source reads the wall clock.
 */
module Cache {
  import opened Base

  /** One cache entry: the value and its bookkeeping times (in seconds). */
  datatype Entry<V> = Entry(value: V, createdAt: int, lastAccessed: int, expiresAt: int, ttl: int)

  type Store<V> = map<string, Entry<V>>

  /** `current_time > entry['expires_at']`: the expiry instant itself is still live. */
  predicate Expired<V>(e: Entry<V>, now: int) { now > e.expiresAt }

  /** The value `get(key)` returns at time `now`. */
  function Lookup<V>(m: Store<V>, key: string, now: int): Option<V>
  {
    if key !in m || Expired(m[key], now) then None else Some(m[key].value)
  }

  /** The store after `get(key)` at time `now`: an expired entry is deleted, a live one touched. */
  function AfterLookup<V>(m: Store<V>, key: string, now: int): Store<V>
  {
    if key !in m then m
    else if Expired(m[key], now) then m - {key}
    else m[key := m[key].(lastAccessed := now)]
  }

  /** A `ttl` of `None` means the cache's default. */
  function EffectiveTtl(ttl: Option<int>, defaultTtl: int): int
  {
    match ttl case Some(t) => t case None => defaultTtl
  }

  /** The store after `set(key, value, ttl)` at time `now`: the entry is overwritten. */
  function Put<V>(m: Store<V>, key: string, value: V, ttl: int, now: int): Store<V>
  {
    m[key := Entry(value, now, now, now + ttl, ttl)]
  }

  /** The keys among `keys` whose entries are expired at `now`. */
  function ExpiredAmong<V>(m: Store<V>, keys: set<string>, now: int): set<string>
  {
    set k | k in keys && k in m && Expired(m[k], now)
  }

  /** The keys among `keys` whose entries are live at `now`. */
  function ActiveAmong<V>(m: Store<V>, keys: set<string>, now: int): set<string>
  {
    set k | k in keys && k in m && !Expired(m[k], now)
  }

  function ExpiredKeys<V>(m: Store<V>, now: int): set<string> { ExpiredAmong(m, m.Keys, now) }
  function ActiveKeys<V>(m: Store<V>, now: int): set<string> { ActiveAmong(m, m.Keys, now) }

  /** The store after `cleanup_expired()` at time `now`. */
  function Sweep<V>(m: Store<V>, now: int): Store<V>
  {
    map k | k in m && !Expired(m[k], now) :: m[k]
  }

  /** The key under which `set_analysis`/`get_analysis` store a content analysis. */
  function AnalysisKey(contentId: string): string { "analysis:" + contentId }

  /** `get` on an absent key returns nothing and leaves the store as it was. */
  lemma GetAbsent<V>(m: Store<V>, key: string, now: int)
    requires key !in m
    ensures Lookup(m, key, now) == None && AfterLookup(m, key, now) == m
  {
  }

  /**
   * `get` on an expired entry returns nothing and removes exactly that key; at
   * the expiry instant itself the value is returned and `last_accessed` refreshed.
   */
  lemma GetExpiredOrLive<V>(m: Store<V>, key: string, now: int)
    requires key in m
    ensures now > m[key].expiresAt ==>
      Lookup(m, key, now) == None && AfterLookup(m, key, now).Keys == m.Keys - {key}
      && forall k | k in m && k != key :: AfterLookup(m, key, now)[k] == m[k]
    ensures now <= m[key].expiresAt ==>
      Lookup(m, key, now) == Some(m[key].value)
      && AfterLookup(m, key, now).Keys == m.Keys
      && AfterLookup(m, key, now)[key].lastAccessed == now
      && AfterLookup(m, key, now)[key].expiresAt == m[key].expiresAt
  {
  }

  /** After `set(k, v, ttl)` at time `t`, `get(k)` returns `v` until `t + ttl` inclusive, and nothing after. */
  lemma SetThenGet<V>(m: Store<V>, key: string, value: V, ttl: int, t: int, now: int)
    ensures t <= now <= t + ttl ==> Lookup(Put(m, key, value, ttl, t), key, now) == Some(value)
    ensures now > t + ttl ==> Lookup(Put(m, key, value, ttl, t), key, now) == None
  {
  }

  /** `set` leaves every other key's entry alone. */
  lemma SetOthersUnchanged<V>(m: Store<V>, key: string, value: V, ttl: int, t: int, other: string, now: int)
    requires other != key
    ensures Lookup(Put(m, key, value, ttl, t), other, now) == Lookup(m, other, now)
  {
  }

  /**
   * Reading never changes what a later read sees: `get` at time `t` only
   * deletes entries that are already dead at `t` and keeps expiry times.
   */
  lemma {:induction false} GetInvisibleLater<V>(m: Store<V>, key: string, t: int, other: string, now: int)
    requires t <= now
    ensures Lookup(AfterLookup(m, key, t), other, now) == Lookup(m, other, now)
  {
    if key in m && Expired(m[key], t) && other == key {
      assert Expired(m[key], now);
    }
  }

  /** Sweeping at time `t` is invisible to every `get` from `t` on. */
  lemma SweepInvisibleLater<V>(m: Store<V>, t: int, key: string, now: int)
    requires t <= now
    ensures Lookup(Sweep(m, t), key, now) == Lookup(m, key, now)
  {
    if key in m && Expired(m[key], t) {
      assert Expired(m[key], now);
    }
  }

  /** The expired and the live keys partition the store. */
  lemma {:induction false} PartitionCount<V>(m: Store<V>, keys: set<string>, now: int)
    requires keys <= m.Keys
    ensures ExpiredAmong(m, keys, now) + ActiveAmong(m, keys, now) == keys
    ensures |ExpiredAmong(m, keys, now)| + |ActiveAmong(m, keys, now)| == |keys|
  {
    var e, a := ExpiredAmong(m, keys, now), ActiveAmong(m, keys, now);
    assert e + a == keys;
    assert e * a == {};
  }

  /** Counting one more key adds it to exactly one of the two counts. */
  lemma CountStep<V>(m: Store<V>, done: set<string>, k: string, now: int)
    requires k in m && k !in done
    ensures |ExpiredAmong(m, done + {k}, now)| == |ExpiredAmong(m, done, now)| + Ind(Expired(m[k], now))
    ensures |ActiveAmong(m, done + {k}, now)| == |ActiveAmong(m, done, now)| + Ind(!Expired(m[k], now))
  {
    if Expired(m[k], now) {
      assert ExpiredAmong(m, done + {k}, now) == ExpiredAmong(m, done, now) + {k};
      assert ActiveAmong(m, done + {k}, now) == ActiveAmong(m, done, now);
    } else {
      assert ActiveAmong(m, done + {k}, now) == ActiveAmong(m, done, now) + {k};
      assert ExpiredAmong(m, done + {k}, now) == ExpiredAmong(m, done, now);
    }
  }

  /** `cleanup_expired` keeps exactly the live entries, unchanged, and drops as many as were expired. */
  lemma SweepExact<V>(m: Store<V>, now: int)
    ensures Sweep(m, now).Keys == ActiveKeys(m, now)
    ensures forall k | k in Sweep(m, now) :: Sweep(m, now)[k] == m[k]
    ensures |Sweep(m, now)| + |ExpiredKeys(m, now)| == |m|
  {
    assert Sweep(m, now).Keys == ActiveKeys(m, now);
    PartitionCount(m, m.Keys, now);
  }

  /** Moving one key from the keys still to visit to the visited ones keeps their union. */
  lemma MoveKey(rest: set<string>, done: set<string>, k: string)
    requires k in rest && rest !! done
    ensures (rest - {k}) + (done + {k}) == rest + done
    ensures (rest - {k}) !! (done + {k})
  {
  }

  /** Sweeping removes exactly the expired keys. */
  lemma SweepRemovesExpired<V>(m: Store<V>, now: int)
    ensures Sweep(m, now) == m - ExpiredKeys(m, now)
  {
    var a, b := Sweep(m, now), m - ExpiredKeys(m, now);
    assert a.Keys == b.Keys;
    forall k | k in a ensures a[k] == b[k] {
    }
  }

  /** Distinct content ids never share an analysis key. */
  lemma AnalysisKeyInjective(a: string, b: string)
    ensures AnalysisKey(a) == AnalysisKey(b) <==> a == b
  {
    if AnalysisKey(a) == AnalysisKey(b) {
      assert a == AnalysisKey(a)[9..] == AnalysisKey(b)[9..] == b;
    }
  }

  /** What `get_stats` reports, without the size estimate. */
  datatype Stats = Stats(totalEntries: nat, activeEntries: int, expiredEntries: nat,
                         hitRate: real, oldestEntry: Option<int>, newestEntry: Option<int>)

  /** What `get_status` reports, without its timestamp. */
  datatype Status = Status(status: string, activeEntries: nat, expiredEntries: nat,
                           totalEntries: nat, defaultTtl: int)

  class CacheManager<V> {
    var cache: Store<V>
    const defaultTtl: int

    constructor (defaultTtl: int)
      ensures cache == map[] && this.defaultTtl == defaultTtl
    {
      cache := map[];
      this.defaultTtl := defaultTtl;
    }

    method Get(key: string, now: int) returns (r: Option<V>)
      modifies this
      ensures r == Lookup(old(cache), key, now)
      ensures cache == AfterLookup(old(cache), key, now)
    {
      if key !in cache {
        return None;
      }
      var entry := cache[key];
      if now > entry.expiresAt {
        cache := cache - {key};
        return None;
      }
      cache := cache[key := entry.(lastAccessed := now)];
      r := Some(entry.value);
    }

    method Set(key: string, value: V, ttl: Option<int>, now: int) returns (ok: bool)
      modifies this
      ensures ok
      ensures cache == Put(old(cache), key, value, EffectiveTtl(ttl, defaultTtl), now)
    {
      var t := if ttl.None? then defaultTtl else ttl.value;
      cache := cache[key := Entry(value, now, now, now + t, t)];
      ok := true;
    }

    method Delete(key: string) returns (existed: bool)
      modifies this
      ensures existed <==> key in old(cache)
      ensures cache == old(cache) - {key}
    {
      if key in cache {
        cache := cache - {key};
        return true;
      }
      return false;
    }

    method Clear() returns (ok: bool)
      modifies this
      ensures ok && cache == map[]
    {
      cache := map[];
      ok := true;
    }

    method CleanupExpired(now: int) returns (removed: nat)
      modifies this
      ensures cache == Sweep(old(cache), now)
      ensures removed == |ExpiredKeys(old(cache), now)|
    {
      var expiredKeys := set k | k in cache && now > cache[k].expiresAt;
      assert expiredKeys == ExpiredKeys(cache, now);
      var rest := expiredKeys;
      while rest != {}
        invariant rest <= expiredKeys
        invariant cache == old(cache) - (expiredKeys - rest)
        decreases |rest|
      {
        var k :| k in rest;
        cache := cache - {k};
        rest := rest - {k};
      }
      SweepRemovesExpired(old(cache), now);
      removed := |expiredKeys|;
    }

    /** Seconds since the oldest entry was created, `None` on an empty cache. */
    method OldestEntryAge(now: int) returns (r: Option<int>)
      ensures r.None? <==> |cache| == 0
      ensures r.Some? ==> exists k | k in cache :: r.value == now - cache[k].createdAt
      ensures r.Some? ==> forall k | k in cache :: now - cache[k].createdAt <= r.value
    {
      if |cache| == 0 {
        return None;
      }
      var rest := cache.Keys;
      var first :| first in rest;
      var oldest := cache[first].createdAt;
      ghost var holder := first;
      rest := rest - {first};
      while rest != {}
        invariant rest <= cache.Keys
        invariant holder in cache && oldest == cache[holder].createdAt
        invariant forall k | k in cache && k !in rest :: oldest <= cache[k].createdAt
        decreases |rest|
      {
        var k :| k in rest;
        if cache[k].createdAt < oldest {
          oldest, holder := cache[k].createdAt, k;
        }
        rest := rest - {k};
      }
      r := Some(now - oldest);
    }

    /** Seconds since the newest entry was created, `None` on an empty cache. */
    method NewestEntryAge(now: int) returns (r: Option<int>)
      ensures r.None? <==> |cache| == 0
      ensures r.Some? ==> exists k | k in cache :: r.value == now - cache[k].createdAt
      ensures r.Some? ==> forall k | k in cache :: r.value <= now - cache[k].createdAt
    {
      if |cache| == 0 {
        return None;
      }
      var rest := cache.Keys;
      var first :| first in rest;
      var newest := cache[first].createdAt;
      ghost var holder := first;
      rest := rest - {first};
      while rest != {}
        invariant rest <= cache.Keys
        invariant holder in cache && newest == cache[holder].createdAt
        invariant forall k | k in cache && k !in rest :: cache[k].createdAt <= newest
        decreases |rest|
      {
        var k :| k in rest;
        if cache[k].createdAt > newest {
          newest, holder := cache[k].createdAt, k;
        }
        rest := rest - {k};
      }
      r := Some(now - newest);
    }

    /** `get_stats`: entry counts, and the largest and smallest entry ages. */
    method GetStats(now: int) returns (s: Stats)
      ensures s.totalEntries == |cache|
      ensures s.expiredEntries == |ExpiredKeys(cache, now)|
      ensures s.activeEntries == |ActiveKeys(cache, now)|
      ensures s.activeEntries + s.expiredEntries == s.totalEntries
      ensures s.hitRate == 0.0
      ensures s.oldestEntry.None? <==> |cache| == 0
      ensures s.newestEntry.None? <==> |cache| == 0
      ensures s.oldestEntry.Some? ==> exists k | k in cache :: s.oldestEntry.value == now - cache[k].createdAt
      ensures s.oldestEntry.Some? ==> forall k | k in cache :: now - cache[k].createdAt <= s.oldestEntry.value
      ensures s.newestEntry.Some? ==> exists k | k in cache :: s.newestEntry.value == now - cache[k].createdAt
      ensures s.newestEntry.Some? ==> forall k | k in cache :: s.newestEntry.value <= now - cache[k].createdAt
      ensures s.oldestEntry.Some? ==> s.newestEntry.Some? && s.newestEntry.value <= s.oldestEntry.value
    {
      var total := |cache|;
      var expired := |set k | k in cache && now > cache[k].expiresAt|;
      assert (set k | k in cache && now > cache[k].expiresAt) == ExpiredKeys(cache, now);
      PartitionCount(cache, cache.Keys, now);
      var oldest := OldestEntryAge(now);
      var newest := NewestEntryAge(now);
      if oldest.Some? {
        var k :| k in cache && newest.value == now - cache[k].createdAt;
      }
      s := Stats(total, total - expired, expired, 0.0, oldest, newest);
    }

    /** `get_status`: the live and expired entries are counted in one pass. */
    method GetStatus(now: int) returns (s: Status)
      ensures s.status == "operational" && s.defaultTtl == defaultTtl
      ensures s.totalEntries == |cache|
      ensures s.expiredEntries == |ExpiredKeys(cache, now)|
      ensures s.activeEntries == |ActiveKeys(cache, now)|
      ensures s.activeEntries + s.expiredEntries == s.totalEntries
    {
      var m := cache;
      var active, expired := 0, 0;
      var rest := m.Keys;
      ghost var done: set<string> := {};
      while rest != {}
        invariant rest + done == m.Keys && rest !! done
        invariant expired == |ExpiredAmong(m, done, now)|
        invariant active == |ActiveAmong(m, done, now)|
        decreases |rest|
      {
        var k :| k in rest;
        CountStep(m, done, k, now);
        MoveKey(rest, done, k);
        if now > m[k].expiresAt {
          expired := expired + 1;
        } else {
          active := active + 1;
        }
        rest, done := rest - {k}, done + {k};
      }
      PartitionCount(m, m.Keys, now);
      s := Status("operational", active, expired, |m|, defaultTtl);
    }

    method GetAnalysis(contentId: string, now: int) returns (r: Option<V>)
      modifies this
      ensures r == Lookup(old(cache), AnalysisKey(contentId), now)
      ensures cache == AfterLookup(old(cache), AnalysisKey(contentId), now)
    {
      r := Get("analysis:" + contentId, now);
    }

    method SetAnalysis(contentId: string, analysis: V, ttl: Option<int>, now: int) returns (ok: bool)
      modifies this
      ensures ok
      ensures cache == Put(old(cache), AnalysisKey(contentId), analysis, EffectiveTtl(ttl, defaultTtl), now)
    {
      ok := Set("analysis:" + contentId, analysis, ttl, now);
    }
  }

  /** Analyses stored for one content id round-trip and do not disturb another's. */
  lemma AnalysisRoundTrip<V>(m: Store<V>, id: string, other: string, a: V, ttl: int, t: int, now: int)
    requires t <= now <= t + ttl && other != id
    ensures Lookup(Put(m, AnalysisKey(id), a, ttl, t), AnalysisKey(id), now) == Some(a)
    ensures Lookup(Put(m, AnalysisKey(id), a, ttl, t), AnalysisKey(other), now) == Lookup(m, AnalysisKey(other), now)
  {
    AnalysisKeyInjective(id, other);
  }
}
