/**
 * The in-memory TTL cache that sits in front of the trend fetches and the
 * generated summaries. Each entry keeps its value, the time it was stored
 * and its time to live; reading an entry older than its time to live
 * removes it and counts a miss. The table never holds more than 1000
 * entries: a store into a full table first drops the expired entries and,
 * if that is not enough, the 100 oldest. The clock is the parameter `now`.
 */
module Cache {
  import opened Wrappers
  import opened Sequences
  import opened Text

  const MaxSize: nat := 1000
  /** `int(max_size * 0.1)`. */
  const EvictionCount: nat := 100

  datatype Entry<V> = Entry(value: V, timestamp: real, ttl: real)

  /** An entry is stale once its age exceeds its time to live; an age equal to it is still fresh. */
  predicate Expired<V>(e: Entry<V>, now: real)
  {
    now - e.timestamp > e.ttl
  }

  /** The entries of `m` that are not stale at `now`. */
  function Live<V>(m: map<string, Entry<V>>, now: real): (r: map<string, Entry<V>>)
    ensures forall k :: k in r <==> k in m && !Expired(m[k], now)
    ensures forall k :: k in r ==> r[k] == m[k]
  {
    map k | k in m && !Expired(m[k], now) :: m[k]
  }

  /** Every entry of `m` is an entry of `before` with the same contents. */
  ghost predicate Retained<V>(m: map<string, Entry<V>>, before: map<string, Entry<V>>)
  {
    forall k :: k in m ==> k in before && m[k] == before[k]
  }

  /** `hits / total` when there were requests, else 0.0. */
  function HitRate(hits: nat, misses: nat): (r: real)
    ensures 0.0 <= r <= 1.0
    ensures hits + misses == 0 ==> r == 0.0
    ensures hits + misses > 0 ==> r * (hits + misses) as real == hits as real
  {
    if hits + misses > 0 then hits as real / (hits + misses) as real else 0.0
  }

  datatype CacheStats = CacheStats(size: nat, maxSize: nat, hits: nat, misses: nat,
                                   hitRate: real, totalRequests: nat)

  class ContextCache<V> {
    var entries: map<string, Entry<V>>
    var hits: nat
    var misses: nat

    /** The table never outgrows its bound. */
    predicate Valid()
      reads this
    {
      |entries| <= MaxSize
    }

    constructor ()
      ensures Valid()
      ensures entries == map[] && hits == 0 && misses == 0
    {
      entries := map[];
      hits := 0;
      misses := 0;
    }

    /**
     * `get`: an absent key is a miss; a stale entry is removed and is a
     * miss; a fresh entry is returned and is a hit.
     */
    method Get(key: string, now: real) returns (r: Option<V>)
      requires Valid()
      modifies this
      ensures Valid()
      ensures key !in old(entries) ==>
                r == None && entries == old(entries) && hits == old(hits) && misses == old(misses) + 1
      ensures key in old(entries) && Expired(old(entries)[key], now) ==>
                r == None && entries == old(entries) - {key} && hits == old(hits) && misses == old(misses) + 1
      ensures key in old(entries) && !Expired(old(entries)[key], now) ==>
                r == Some(old(entries)[key].value) && entries == old(entries)
                && hits == old(hits) + 1 && misses == old(misses)
    {
      if key !in entries {
        misses := misses + 1;
        return None;
      }
      var e := entries[key];
      var age := now - e.timestamp;
      if age > e.ttl {
        entries := entries - {key};
        misses := misses + 1;
        return None;
      }
      hits := hits + 1;
      return Some(e.value);
    }

    /**
     * `set`: the key now holds the value, stamped `now`. A table that was
     * not full loses nothing; a full one first loses its stale entries and,
     * if still full, the `EvictionCount` oldest of the rest.
     */
    method Set(key: string, value: V, ttl: real, now: real)
      requires Valid()
      modifies this
      ensures Valid()
      ensures hits == old(hits) && misses == old(misses)
      ensures key in entries && entries[key] == Entry(value, now, ttl)
      ensures Retained(entries - {key}, old(entries))
      ensures |old(entries)| < MaxSize ==> entries == old(entries)[key := Entry(value, now, ttl)]
      ensures |old(entries)| >= MaxSize ==>
                forall k :: k in entries && k != key ==> !Expired(old(entries)[k], now)
      ensures |old(entries)| >= MaxSize && |Live(old(entries), now)| < MaxSize ==>
                entries == Live(old(entries), now)[key := Entry(value, now, ttl)]
      ensures |old(entries)| >= MaxSize && |Live(old(entries), now)| >= MaxSize ==>
                && MaxSize - EvictionCount <= |entries| <= MaxSize - EvictionCount + 1
                && forall k, j :: k in Live(old(entries), now) && k !in entries && j in entries && j != key
                     ==> old(entries)[k].timestamp <= old(entries)[j].timestamp
    {
      if |entries| >= MaxSize {
        EvictExpired(now);
        RetainedSize(entries, old(entries));
        if |entries| >= MaxSize {
          EvictOldest(EvictionCount);
        }
      }
      entries := entries[key := Entry(value, now, ttl)];
    }

    /** `delete`: only that key goes; an absent key changes nothing. */
    method Delete(key: string)
      requires Valid()
      modifies this
      ensures Valid()
      ensures entries == old(entries) - {key}
      ensures hits == old(hits) && misses == old(misses)
    {
      if key in entries {
        entries := entries - {key};
      }
    }

    /** `clear`: no entries and both counters back to zero. */
    method Clear()
      modifies this
      ensures Valid()
      ensures entries == map[] && hits == 0 && misses == 0
    {
      entries := map[];
      hits := 0;
      misses := 0;
    }

    /** `_evict_expired`: collect the stale keys, then delete them one by one. */
    method EvictExpired(now: real)
      modifies this
      ensures entries == Live(old(entries), now)
      ensures hits == old(hits) && misses == old(misses)
    {
      var m := entries;
      var stale := Enumerate(set k | k in m && Expired(m[k], now));
      DeleteAll(stale);
    }

    /**
     * `_evict_oldest`: sort the entries by timestamp (a stable sort over
     * the table's order) and delete the first `count`.
     */
    method EvictOldest(count: int)
      modifies this
      ensures Retained(entries, old(entries))
      ensures |entries| == |old(entries)| - (if count >= 0 then Min(count, |old(entries)|)
                                             else Max(0, |old(entries)| + count))
      ensures forall k, j :: k in old(entries) && k !in entries && j in entries
                ==> old(entries)[k].timestamp <= entries[j].timestamp
      ensures hits == old(hits) && misses == old(misses)
    {
      var m := entries;
      var doomed := OldestKeys(m, count);
      DeleteAll(doomed);
      RemovedCount(m, entries, doomed);
      assert forall k :: k in m && k !in entries ==> k in doomed;
    }

    /** `for key in keys: del self._cache[key]`, for keys of the table. */
    method DeleteAll(keys: seq<string>)
      requires Elements(keys) <= entries.Keys
      modifies this
      ensures entries.Keys == old(entries).Keys - Elements(keys)
      ensures Retained(entries, old(entries))
      ensures hits == old(hits) && misses == old(misses)
    {
      var i := 0;
      while i < |keys|
        invariant 0 <= i <= |keys|
        invariant entries.Keys == old(entries).Keys - Elements(keys[..i])
        invariant Retained(entries, old(entries))
        invariant hits == old(hits) && misses == old(misses)
      {
        assert keys[..i + 1] == keys[..i] + [keys[i]];
        entries := entries - {keys[i]};
        i := i + 1;
      }
      assert keys[..i] == keys;
    }

    /** `get_stats`. */
    function GetStats(): (s: CacheStats)
      reads this
      ensures s.size == |entries| && s.maxSize == MaxSize
      ensures s.hits == hits && s.misses == misses
      ensures s.totalRequests == hits + misses
      ensures 0.0 <= s.hitRate <= 1.0
      ensures s.totalRequests == 0 ==> s.hitRate == 0.0
      ensures s.totalRequests > 0 ==> s.hitRate * s.totalRequests as real == hits as real
    {
      CacheStats(|entries|, MaxSize, hits, misses, HitRate(hits, misses), hits + misses)
    }

    /** `cleanup`: drop every stale entry. */
    method Cleanup(now: real)
      requires Valid()
      modifies this
      ensures Valid()
      ensures entries == Live(old(entries), now)
      ensures hits == old(hits) && misses == old(misses)
    {
      EvictExpired(now);
      RetainedSize(entries, old(entries));
    }
  }

  /** The sort key that puts older entries first in a descending sort. */
  function OldestFirstKey<V>(m: map<string, Entry<V>>): string -> real
  {
    (k: string) => if k in m then -m[k].timestamp else 0.0
  }

  /**
   * `sorted(table.items(), key=timestamp)[:count]`: the first `count` keys
   * in timestamp order, distinct keys of the table, none younger than a key
   * left out. The table's own order, which breaks ties, is not modelled.
   */
  method OldestKeys<V>(m: map<string, Entry<V>>, count: int) returns (doomed: seq<string>)
    ensures Distinct(doomed) && Elements(doomed) <= m.Keys
    ensures |doomed| == if count >= 0 then Min(count, |m|) else Max(0, |m| + count)
    ensures forall k, j :: k in doomed && j in m && j !in doomed ==> m[k].timestamp <= m[j].timestamp
  {
    var keys := Enumerate(m.Keys);
    var byAge := SortDesc(keys, OldestFirstKey(m));
    doomed := Take(byAge, count);
    DoomedKeys(m, keys, byAge, doomed);
    DoomedOldest(m, keys, count);
    DistinctCardinality(keys);
  }

  lemma DoomedKeys<V>(m: map<string, Entry<V>>, keys: seq<string>, byAge: seq<string>, doomed: seq<string>)
    requires Distinct(keys) && Elements(keys) == m.Keys
    requires byAge == SortDesc(keys, OldestFirstKey(m)) && doomed <= byAge
    ensures Distinct(doomed) && Elements(doomed) <= m.Keys
  {
    SortDescFacts(keys, OldestFirstKey(m));
    PermutationDistinct(keys, byAge);
    assert doomed == byAge[..|doomed|];
    forall k | k in doomed ensures k in m {
      assert k in multiset(byAge);
    }
  }

  lemma DoomedOldest<V>(m: map<string, Entry<V>>, keys: seq<string>, count: int)
    requires Distinct(keys) && Elements(keys) == m.Keys
    requires Elements(Take(SortDesc(keys, OldestFirstKey(m)), count)) <= m.Keys
    ensures var doomed := Take(SortDesc(keys, OldestFirstKey(m)), count);
      forall k, j :: k in doomed && j in m && j !in doomed ==> m[k].timestamp <= m[j].timestamp
  {
    var age := OldestFirstKey(m);
    var doomed := Take(SortDesc(keys, age), count);
    TakeSortedDropped(keys, age, count);
    forall k, j | k in doomed && j in m && j !in doomed ensures m[k].timestamp <= m[j].timestamp {
      assert j in keys;
      DistinctCount(keys, j);
      assert multiset(doomed)[j] == 0;
      assert j in multiset(keys) - multiset(doomed);
      assert k in m;
      assert age(k) >= age(j);
    }
  }

  /** A table keeping only some entries of another is no larger. */
  lemma RetainedSize<V>(m: map<string, Entry<V>>, before: map<string, Entry<V>>)
    requires Retained(m, before)
    ensures |m| <= |before|
  {
    assert m.Keys <= before.Keys;
    SubsetSize(m.Keys, before.Keys);
  }

  lemma SubsetSize<T>(a: set<T>, b: set<T>)
    requires a <= b
    ensures |a| <= |b|
  {
    assert b == a + (b - a);
  }

  /** Deleting `d`, distinct keys of `m`, leaves `|m| - |d|` entries. */
  lemma RemovedCount<V>(m: map<string, Entry<V>>, e: map<string, Entry<V>>, d: seq<string>)
    requires Distinct(d) && Elements(d) <= m.Keys
    requires e.Keys == m.Keys - Elements(d)
    ensures |e| == |m| - |d|
  {
    DistinctCardinality(d);
    assert m.Keys == e.Keys + Elements(d);
    assert e.Keys !! Elements(d);
    assert |m.Keys| == |e.Keys| + |Elements(d)|;
  }

  const TopicPrefix := "trending:"
  const SummaryPrefix := "context_summary:"

  /** `cache_key_for_topic`: the topic and the sorted sources joined by "_". */
  function TopicKey(topic: string, sources: seq<string>): (k: string)
    ensures TopicPrefix <= k
  {
    TopicPrefix + topic + ":" + Join("_", SortStrings(sources))
  }

  /** `cache_key_for_context_summary`. */
  function SummaryKey(topic: string, sources: seq<string>): (k: string)
    ensures SummaryPrefix <= k
  {
    SummaryPrefix + topic + ":" + Join("_", SortStrings(sources))
  }

  /** A key does not depend on the order in which the sources are listed. */
  lemma KeysIgnoreSourceOrder(topic: string, a: seq<string>, b: seq<string>)
    requires multiset(a) == multiset(b)
    ensures TopicKey(topic, a) == TopicKey(topic, b)
    ensures SummaryKey(topic, a) == SummaryKey(topic, b)
  {
    SortStringsCanonical(a, b);
  }

  /** No topic key is ever a summary key, so the two families never collide. */
  lemma KeyFamiliesDisjoint(t1: string, s1: seq<string>, t2: string, s2: seq<string>)
    ensures TopicKey(t1, s1) != SummaryKey(t2, s2)
  {
    assert TopicKey(t1, s1)[0] == 't';
    assert SummaryKey(t2, s2)[0] == 'c';
  }
}
