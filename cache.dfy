/**
 * The TTL + LRU cache (src/utils/cache.js).  Two maps keyed alike, the
 * entries and their last access times, plus the insertion order a
 * JavaScript `Map` iterates in; expiry is checked on read, eviction takes
 * the least recently accessed key, and a sweep drops expired entries.  The
 * clock is the `now` parameter.
 */
module Caching {
  import opened Text
  import opened Collections

  const DefaultTtl := 300000
  const DefaultMaxSize := 1000

  /** The metadata record stored for each key. */
  datatype Entry<V> = Entry(value: V, createdAt: int, expiresAt: int, accessCount: nat)

  datatype CacheStats = CacheStats(hits: nat, misses: nat, sets: nat, deletes: nat, cleanups: nat)

  /** An entry past its expiry time: `now > expiresAt` (an entry at exactly `expiresAt` is still live). */
  predicate Expired<V>(e: Entry<V>, now: int) {
    now > e.expiresAt
  }

  /** The keys whose entries have expired at `now`. */
  function ExpiredKeys<V>(entries: map<string, Entry<V>>, now: int): (ks: set<string>)
    ensures forall k :: k in ks <==> k in entries && Expired(entries[k], now)
  {
    set k | k in entries && Expired(entries[k], now)
  }

  /** The keys of `order` whose entries have expired at `now`, in that order. */
  function ExpiredInOrder<V>(order: seq<string>, entries: map<string, Entry<V>>, now: int): (r: seq<string>)
    requires forall k | k in order :: k in entries
    ensures forall k :: k in r <==> k in order && Expired(entries[k], now)
    ensures Distinct(order) ==> Distinct(r)
  {
    if order == [] then []
    else
      var rest := ExpiredInOrder(order[1..], entries, now);
      assert order[0] in order && (Distinct(order) ==> order[0] !in order[1..]);
      if Expired(entries[order[0]], now) then [order[0]] + rest else rest
  }

  /** Scanning one more key extends the list when that key has expired. */
  lemma {:induction false} ExpiredInOrderAppend<V>(order: seq<string>, k: string, entries: map<string, Entry<V>>, now: int)
    requires forall j | j in order :: j in entries
    requires k in entries
    ensures ExpiredInOrder(order + [k], entries, now) ==
      ExpiredInOrder(order, entries, now) + (if Expired(entries[k], now) then [k] else [])
  {
    if order != [] {
      assert (order + [k])[1..] == order[1..] + [k];
      ExpiredInOrderAppend(order[1..], k, entries, now);
    }
  }

  /** A sweep keeps exactly the entries a read would still return. */
  lemma SweepKeepsLiveEntries<V>(entries: map<string, Entry<V>>, now: int, key: string)
    ensures key in entries - ExpiredKeys(entries, now) <==> Lookup(entries, key, now).Some?
  {
  }

  /** What a read of `key` at `now` yields. */
  function Lookup<V>(entries: map<string, Entry<V>>, key: string, now: int): (r: Option<V>)
    ensures r.Some? <==> key in entries && !Expired(entries[key], now)
    ensures r.Some? ==> r.value == entries[key].value
  {
    if key in entries && !Expired(entries[key], now) then Some(entries[key].value) else None
  }

  /** Outside `keys`, `after` holds no new key, and every entry it holds is the one `before` held. */
  ghost predicate SameOutside<V>(before: map<string, Entry<V>>, after: map<string, Entry<V>>, keys: set<string>) {
    forall k | k in after && k !in keys :: k in before && after[k] == before[k]
  }

  /** Outside `keys`, no key of `before` is missing from `after`. */
  ghost predicate KeptOutside<V>(before: map<string, Entry<V>>, after: map<string, Entry<V>>, keys: set<string>) {
    forall k | k in before && k !in keys :: k in after
  }

  /** Two steps that each stay outside their keys stay outside the union. */
  lemma OutsideTrans<V>(a: map<string, Entry<V>>, b: map<string, Entry<V>>, c: map<string, Entry<V>>, ka: set<string>, kb: set<string>)
    ensures SameOutside(a, b, ka) && SameOutside(b, c, kb) ==> SameOutside(a, c, ka + kb)
    ensures KeptOutside(a, b, ka) && KeptOutside(b, c, kb) ==> KeptOutside(a, c, ka + kb)
  {
  }

  /** Staying outside some keys is staying outside any larger set of keys. */
  lemma OutsideGrow<V>(a: map<string, Entry<V>>, b: map<string, Entry<V>>, small: set<string>, large: set<string>)
    requires small <= large
    ensures SameOutside(a, b, small) ==> SameOutside(a, b, large)
    ensures KeptOutside(a, b, small) ==> KeptOutside(a, b, large)
  {
  }

  /**
   * A key outside the changed ones that could not be looked up before
   * cannot be looked up after; if no key was lost either, its lookup is
   * unchanged.
   */
  lemma LookupOutside<V>(before: map<string, Entry<V>>, after: map<string, Entry<V>>, keys: set<string>, k: string, now: int)
    requires k !in keys && SameOutside(before, after, keys)
    ensures Lookup(before, k, now).None? ==> Lookup(after, k, now).None?
    ensures KeptOutside(before, after, keys) ==> Lookup(after, k, now) == Lookup(before, k, now)
  {
  }

  /** A value stored at `now` with time to live `ttl` is read back until `now + ttl`, and not after. */
  lemma StoredValueReadBack<V>(entries: map<string, Entry<V>>, key: string, value: V, now: int, ttl: int, later: int)
    ensures var stored := entries[key := Entry(value, now, now + ttl, 0)];
      Lookup(stored, key, later) == (if later <= now + ttl then Some(value) else None)
  {
  }

  /** `customTtl || this.ttl`: 0 stands for an absent custom time to live. */
  function TtlFor(customTtl: int, ttl: int): (t: int)
    ensures customTtl != 0 ==> t == customTtl
    ensures customTtl == 0 ==> t == ttl
  {
    if customTtl != 0 then customTtl else ttl
  }

  /**
   * The key `_evictLRU` picks: scanning in insertion order from a bound of
   * `now`, the first key whose access time is strictly the smallest and
   * strictly below `now`; `None` when no access time is below `now`.
   */
  ghost predicate IsVictim(order: seq<string>, times: map<string, int>, now: int, victim: Option<string>)
    requires forall k | k in order :: k in times
  {
    if victim.None? then
      forall j | 0 <= j < |order| :: times[order[j]] >= now
    else
      exists at | 0 <= at < |order| ::
        && order[at] == victim.value
        && times[order[at]] < now
        && (forall j | 0 <= j < |order| :: times[order[j]] >= times[order[at]])
        && (forall j | 0 <= j < at :: times[order[j]] > times[order[at]])
  }

  /** The eviction rule picks at most one key, and always the same one. */
  lemma VictimUnique(order: seq<string>, times: map<string, int>, now: int, v1: Option<string>, v2: Option<string>)
    requires forall k | k in order :: k in times
    requires IsVictim(order, times, now, v1) && IsVictim(order, times, now, v2)
    ensures v1 == v2
  {
    if v1.Some? && v2.Some? {
      var a1 :| 0 <= a1 < |order| && order[a1] == v1.value && times[order[a1]] < now
        && (forall j | 0 <= j < |order| :: times[order[j]] >= times[order[a1]])
        && (forall j | 0 <= j < a1 :: times[order[j]] > times[order[a1]]);
      var a2 :| 0 <= a2 < |order| && order[a2] == v2.value && times[order[a2]] < now
        && (forall j | 0 <= j < |order| :: times[order[j]] >= times[order[a2]])
        && (forall j | 0 <= j < a2 :: times[order[j]] > times[order[a2]]);
      assert times[order[a1]] == times[order[a2]];
      assert a1 == a2;
    } else if v1.Some? || v2.Some? {
      assert false;
    }
  }

  /** The keys an eviction actually removes: `if (oldestKey)` skips the empty key. */
  function Evicted(victim: Option<string>): (ks: set<string>)
    ensures |ks| <= 1
    ensures ks != {} <==> victim.Some? && victim.value != ""
  {
    if victim.Some? && victim.value != "" then {victim.value} else {}
  }

  /** `createVehicleKey`. */
  function VehicleKey(plate: string): string
  {
    "vehicle:" + plate
  }

  /** `createDisabilityKey`. */
  function DisabilityKey(plate: string): string
  {
    "disability:" + plate
  }

  /** The two key families never collide, and each is one-to-one. */
  lemma KeysDisjoint(p: string, q: string)
    ensures VehicleKey(p) != DisabilityKey(q)
    ensures VehicleKey(p) == VehicleKey(q) ==> p == q
    ensures DisabilityKey(p) == DisabilityKey(q) ==> p == q
  {
    assert VehicleKey(p)[0] == 'v' && DisabilityKey(q)[0] == 'd';
    if VehicleKey(p) == VehicleKey(q) {
      assert p == VehicleKey(p)[8..] && q == VehicleKey(q)[8..];
    }
    if DisabilityKey(p) == DisabilityKey(q) {
      assert p == DisabilityKey(p)[11..] && q == DisabilityKey(q)[11..];
    }
  }

  class SimpleCache<V> {
    const ttl: int
    const maxSize: int
    var entries: map<string, Entry<V>>
    var accessTimes: map<string, int>
    /** The keys of both maps in the order the maps iterate them. */
    var order: seq<string>
    var stats: CacheStats
    /** Whether the `setInterval` sweep is still scheduled. */
    var sweepScheduled: bool

    ghost predicate Valid()
      reads this
    {
      && Distinct(order)
      && (forall k | k in order :: k in entries)
      && (forall k | k in entries :: k in order)
      && entries.Keys == accessTimes.Keys
    }

    /** `options.ttl || 300000` and `options.maxSize || 1000`; 0 stands for an absent option. */
    constructor(ttlOption: nat, maxSizeOption: nat)
      ensures Valid()
      ensures ttl == (if ttlOption != 0 then ttlOption else DefaultTtl)
      ensures maxSize == (if maxSizeOption != 0 then maxSizeOption else DefaultMaxSize)
      ensures entries == map[] && accessTimes == map[] && order == []
      ensures stats == CacheStats(0, 0, 0, 0, 0) && sweepScheduled
    {
      ttl := if ttlOption != 0 then ttlOption else DefaultTtl;
      maxSize := if maxSizeOption != 0 then maxSizeOption else DefaultMaxSize;
      entries := map[];
      accessTimes := map[];
      order := [];
      stats := CacheStats(0, 0, 0, 0, 0);
      sweepScheduled := true;
    }

    function Size(): (n: nat)
      reads this
      requires Valid()
      ensures n == |order|
    {
      DistinctCardinality(order);
      assert Elements(order) == entries.Keys;
      |entries|
    }

    /** `delete`: removes the key from both maps; counts only an actual removal. */
    method Delete(key: string) returns (deleted: bool)
      requires Valid()
      modifies this
      ensures Valid()
      ensures deleted <==> key in old(entries)
      ensures entries == old(entries) - {key} && accessTimes == old(accessTimes) - {key}
      ensures order == Without(old(order), key)
      ensures stats == old(stats).(deletes := old(stats.deletes) + (if deleted then 1 else 0))
      ensures sweepScheduled == old(sweepScheduled)
    {
      deleted := key in entries;
      entries := entries - {key};
      accessTimes := accessTimes - {key};
      order := Without(order, key);
      if deleted {
        stats := stats.(deletes := stats.deletes + 1);
      }
    }

    /** `_evictLRU`: the scan for the smallest access time, then a delete of a non-empty key. */
    method EvictLRU(now: int) returns (ghost victim: Option<string>)
      requires Valid()
      modifies this
      ensures Valid()
      ensures IsVictim(old(order), old(accessTimes), now, victim)
      ensures entries == old(entries) - Evicted(victim) && accessTimes == old(accessTimes) - Evicted(victim)
      ensures Evicted(victim) == {} ==> order == old(order)
      ensures Evicted(victim) != {} ==> order == Without(old(order), victim.value)
      ensures stats == old(stats).(deletes := old(stats.deletes) + |Evicted(victim)|)
      ensures sweepScheduled == old(sweepScheduled)
    {
      var oldestKey: Option<string> := None;
      var oldestTime := now;
      ghost var at := -1;
      var i := 0;
      while i < |order|
        invariant 0 <= i <= |order|
        invariant oldestKey.None? ==> oldestTime == now && forall j | 0 <= j < i :: accessTimes[order[j]] >= now
        invariant oldestKey.Some? ==>
          && 0 <= at < i && order[at] == oldestKey.value
          && oldestTime == accessTimes[order[at]] < now
          && (forall j | 0 <= j < i :: accessTimes[order[j]] >= oldestTime)
          && (forall j | 0 <= j < at :: accessTimes[order[j]] > oldestTime)
      {
        var time := accessTimes[order[i]];
        if time < oldestTime {
          oldestTime := time;
          oldestKey := Some(order[i]);
          at := i;
        }
        i := i + 1;
      }
      victim := oldestKey;
      if oldestKey.Some? && oldestKey.value != "" {
        var _ := Delete(oldestKey.value);
      }
    }

    /** `set`: evict when full, then store a fresh entry and stamp its access time. */
    method Set(key: string, value: V, customTtl: int, now: int) returns (ghost victim: Option<string>)
      requires Valid()
      modifies this
      ensures Valid()
      ensures old(|entries|) >= maxSize ==> IsVictim(old(order), old(accessTimes), now, victim)
      ensures old(|entries|) < maxSize ==> victim == None
      ensures entries == (old(entries) - Evicted(victim))[key := Entry(value, now, now + TtlFor(customTtl, ttl), 0)]
      ensures accessTimes == (old(accessTimes) - Evicted(victim))[key := now]
      ensures stats == old(stats).(sets := old(stats.sets) + 1, deletes := old(stats.deletes) + |Evicted(victim)|)
      ensures var kept := if Evicted(victim) == {} then old(order) else Without(old(order), victim.value);
        order == if key in old(entries) - Evicted(victim) then kept else kept + [key]
      ensures sweepScheduled == old(sweepScheduled)
    {
      var t := TtlFor(customTtl, ttl);
      victim := MakeRoom(now);
      assert key in entries <==> key in old(entries) - Evicted(victim);
      Store(key, Entry(value, now, now + t, 0), now);
    }

    /** The first statement of `set`: `_evictLRU` when the cache is full. */
    method MakeRoom(now: int) returns (ghost victim: Option<string>)
      requires Valid()
      modifies this
      ensures Valid()
      ensures old(|entries|) >= maxSize ==> IsVictim(old(order), old(accessTimes), now, victim)
      ensures old(|entries|) < maxSize ==> victim == None
      ensures entries == old(entries) - Evicted(victim) && accessTimes == old(accessTimes) - Evicted(victim)
      ensures order == if Evicted(victim) == {} then old(order) else Without(old(order), victim.value)
      ensures stats == old(stats).(deletes := old(stats.deletes) + |Evicted(victim)|)
      ensures sweepScheduled == old(sweepScheduled)
    {
      victim := None;
      if |entries| >= maxSize {
        victim := EvictLRU(now);
      }
    }

    /** The two `Map.set` calls of `set` and the `sets` count. */
    method Store(key: string, e: Entry<V>, now: int)
      requires Valid()
      modifies this
      ensures Valid()
      ensures entries == old(entries)[key := e] && accessTimes == old(accessTimes)[key := now]
      ensures order == if key in old(entries) then old(order) else old(order) + [key]
      ensures stats == old(stats).(sets := old(stats.sets) + 1)
      ensures sweepScheduled == old(sweepScheduled)
    {
      if key !in entries {
        order := order + [key];
      }
      entries := entries[key := e];
      accessTimes := accessTimes[key := now];
      stats := stats.(sets := stats.sets + 1);
    }

    /** `get`: a miss, an expired entry (deleted, then a miss) or a hit that stamps the access. */
    method Get(key: string, now: int) returns (r: Option<V>)
      requires Valid()
      modifies this
      ensures Valid()
      ensures r == Lookup(old(entries), key, now)
      ensures key !in old(entries) ==>
        && entries == old(entries) && accessTimes == old(accessTimes) && order == old(order)
        && stats == old(stats).(misses := old(stats.misses) + 1)
      ensures key in old(entries) && Expired(old(entries)[key], now) ==>
        && entries == old(entries) - {key} && accessTimes == old(accessTimes) - {key}
        && order == Without(old(order), key)
        && stats == old(stats).(misses := old(stats.misses) + 1, deletes := old(stats.deletes) + 1)
      ensures r.Some? ==>
        && entries == old(entries)[key := old(entries)[key].(accessCount := old(entries)[key].accessCount + 1)]
        && accessTimes == old(accessTimes)[key := now] && order == old(order)
        && stats == old(stats).(hits := old(stats.hits) + 1)
      ensures sweepScheduled == old(sweepScheduled)
    {
      if key !in entries {
        stats := stats.(misses := stats.misses + 1);
        return None;
      }
      var item := entries[key];
      if now > item.expiresAt {
        var _ := Delete(key);
        stats := stats.(misses := stats.misses + 1);
        return None;
      }
      entries := entries[key := item.(accessCount := item.accessCount + 1)];
      accessTimes := accessTimes[key := now];
      stats := stats.(hits := stats.hits + 1);
      r := Some(item.value);
    }

    /** `has`: the expiry rule of `get`, without touching hits, misses or the access time. */
    method Has(key: string, now: int) returns (present: bool)
      requires Valid()
      modifies this
      ensures Valid()
      ensures present <==> Lookup(old(entries), key, now).Some?
      ensures key in old(entries) && Expired(old(entries)[key], now) ==>
        && entries == old(entries) - {key} && accessTimes == old(accessTimes) - {key}
        && order == Without(old(order), key)
        && stats == old(stats).(deletes := old(stats.deletes) + 1)
      ensures !(key in old(entries) && Expired(old(entries)[key], now)) ==>
        entries == old(entries) && accessTimes == old(accessTimes) && order == old(order) && stats == old(stats)
      ensures sweepScheduled == old(sweepScheduled)
    {
      if key !in entries {
        return false;
      }
      if now > entries[key].expiresAt {
        var _ := Delete(key);
        return false;
      }
      present := true;
    }

    /** `clear`: empties both maps and counts every entry as deleted. */
    method Clear()
      requires Valid()
      modifies this
      ensures Valid()
      ensures entries == map[] && accessTimes == map[] && order == []
      ensures stats == old(stats).(deletes := old(stats.deletes) + old(|entries|))
      ensures sweepScheduled == old(sweepScheduled)
    {
      var size := |entries|;
      entries := map[];
      accessTimes := map[];
      order := [];
      stats := stats.(deletes := stats.deletes + size);
    }

    /** The first loop of `_cleanup`: the expired keys, in iteration order. */
    method CollectExpired(now: int) returns (expired: seq<string>)
      requires Valid()
      ensures expired == ExpiredInOrder(order, entries, now)
      ensures Distinct(expired)
      ensures Elements(expired) == ExpiredKeys(entries, now)
    {
      expired := [];
      var i := 0;
      while i < |order|
        invariant 0 <= i <= |order|
        invariant expired == ExpiredInOrder(order[..i], entries, now)
      {
        assert order[..i + 1] == order[..i] + [order[i]];
        ExpiredInOrderAppend(order[..i], order[i], entries, now);
        if now > entries[order[i]].expiresAt {
          expired := expired + [order[i]];
        }
        i := i + 1;
      }
      assert order[..i] == order;
    }

    /** `keys.forEach(key => this.delete(key))` over distinct keys that are all present. */
    method DeleteAll(keys: seq<string>)
      requires Valid()
      requires Distinct(keys) && forall k | k in keys :: k in entries
      modifies this
      ensures Valid()
      ensures entries == old(entries) - Elements(keys) && accessTimes == old(accessTimes) - Elements(keys)
      ensures order == WithoutAll(old(order), Elements(keys))
      ensures stats == old(stats).(deletes := old(stats.deletes) + |keys|)
      ensures sweepScheduled == old(sweepScheduled)
    {
      var n := 0;
      ghost var order0, done := order, {};
      assert Elements(keys[..0]) == {};
      WithoutAllMembers(order0, {});
      while n < |keys|
        invariant 0 <= n <= |keys| && done == Elements(keys[..n])
        invariant Valid() && sweepScheduled == old(sweepScheduled)
        invariant entries == old(entries) - done
        invariant accessTimes == old(accessTimes) - done
        invariant order == WithoutAll(order0, done)
        invariant stats == old(stats).(deletes := old(stats.deletes) + n)
      {
        ElementsSnoc(keys, n);
        WithoutAllStep(order0, done, keys[n]);
        MapMinusStep(old(entries), done, keys[n]);
        MapMinusStep(old(accessTimes), done, keys[n]);
        var _ := Delete(keys[n]);
        n, done := n + 1, done + {keys[n]};
      }
      assert keys[..n] == keys;
    }

    /** `_cleanup`: collect the expired keys, then delete each of them. */
    method Cleanup(now: int)
      requires Valid()
      modifies this
      ensures Valid()
      ensures entries == old(entries) - ExpiredKeys(old(entries), now)
      ensures accessTimes == old(accessTimes) - ExpiredKeys(old(entries), now)
      ensures order == WithoutAll(old(order), ExpiredKeys(old(entries), now))
      ensures var removed := ExpiredKeys(old(entries), now);
        stats == old(stats).(deletes := old(stats.deletes) + |removed|,
                             cleanups := old(stats.cleanups) + (if removed != {} then 1 else 0))
      ensures sweepScheduled == old(sweepScheduled)
    {
      var expired := CollectExpired(now);
      assert forall k | k in expired :: k in Elements(expired);
      DeleteAll(expired);
      DistinctCardinality(expired);
      if |expired| > 0 {
        stats := stats.(cleanups := stats.cleanups + 1);
      }
    }

    /** `destroy`: stop the sweep, then `clear`. */
    method Destroy()
      requires Valid()
      modifies this
      ensures Valid()
      ensures entries == map[] && accessTimes == map[] && order == [] && !sweepScheduled
      ensures stats == old(stats).(deletes := old(stats.deletes) + old(|entries|))
    {
      sweepScheduled := false;
      Clear();
    }
  }

  /** Removing `b`'s keys from `a` removes exactly the shared ones. */
  lemma MinusCard(a: set<string>, b: set<string>)
    ensures |a - b| == |a| - |a * b|
  {
    assert a == (a - b) + (a * b);
    assert (a - b) * (a * b) == {};
  }

  /**
   * What a `set` does to the size of a cache of at most `maxSize` entries:
   * it stays within `maxSize` exactly when there was room, the key was
   * already stored, or the eviction removed a key; otherwise (no access time
   * below `now`, or an oldest key of `''`) it grows to `maxSize + 1`.
   */
  lemma SetWithinBound<V>(before: map<string, Entry<V>>, victim: Option<string>, key: string, e: Entry<V>, maxSize: int)
    requires |before| <= maxSize
    ensures var after := (before - Evicted(victim))[key := e];
      && |after| <= maxSize + 1
      && (|after| <= maxSize <==> |before| < maxSize || key in before || Evicted(victim) * before.Keys != {})
  {
    var gone := Evicted(victim) * before.Keys;
    var keptKeys := before.Keys - Evicted(victim);
    MinusCard(before.Keys, Evicted(victim));
    assert |keptKeys| == |before| - |gone|;
    var after := (before - Evicted(victim))[key := e];
    assert after.Keys == keptKeys + {key};
    if key in keptKeys {
      assert after.Keys == keptKeys;
    } else {
      assert |after.Keys| == |keptKeys| + 1;
      assert key in before ==> key in gone;
    }
  }

  /**
   * A full cache of one entry whose access time is `now` has no victim, so
   * a `set` of a second key leaves it holding two entries.
   */
  lemma FullCacheOverflows<V>(e: Entry<V>)
    ensures IsVictim(["a"], map["a" := 5], 5, None)
    ensures |(map["a" := e] - Evicted(None))["b" := e]| == 2
  {
    var after := (map["a" := e] - Evicted(None))["b" := e];
    assert after.Keys == {"a", "b"};
  }
}
