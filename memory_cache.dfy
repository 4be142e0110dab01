/**
 * The in-memory cache used in serverless deployments: a `Map` from key to
 * entry, iterated in insertion order, with expiry on read, a sweep of expired
 * entries and eviction of the oldest entry when full. The clock is the `now`
 * argument of each operation.
 */
module MemoryCacheStore {
  import opened Wrappers
  import opened Text
  import opened CacheEntries

  /** The capacity of the shared instance. */
  const DefaultMaxEntries := 500

  /** The timestamps of the entries of `keys`, in the same order. */
  function Stamps(keys: seq<string>, entries: map<string, Entry>): (ts: seq<int>)
    requires forall k :: k in keys ==> k in entries
    ensures |ts| == |keys|
  {
    if keys == [] then [] else Stamps(keys[..|keys| - 1], entries) + [entries[keys[|keys| - 1]].timestamp]
  }

  lemma {:induction false} StampsAt(keys: seq<string>, entries: map<string, Entry>)
    requires forall k :: k in keys ==> k in entries
    ensures forall j :: 0 <= j < |keys| ==> Stamps(keys, entries)[j] == entries[keys[j]].timestamp
  {
    if keys != [] {
      var init := keys[..|keys| - 1];
      StampsAt(init, entries);
      assert forall j :: 0 <= j < |init| ==> init[j] == keys[j];
    }
  }

  /** The stamps of a prefix are the prefix of the stamps. */
  lemma StampsPrefix(keys: seq<string>, entries: map<string, Entry>, i: nat)
    requires forall k :: k in keys ==> k in entries
    requires i < |keys|
    ensures Stamps(keys[..i + 1], entries) == Stamps(keys[..i], entries) + [entries[keys[i]].timestamp]
  {
    assert keys[..i + 1][..i] == keys[..i];
  }

  /**
   * The scan of `deleteOldest`: the position whose value is strictly below
   * `bound` and below every value seen before it, or None.
   */
  function OldestIndex(ts: seq<int>, bound: int): (r: Option<nat>)
    ensures r.Some? ==> r.value < |ts| && ts[r.value] < bound
  {
    if ts == [] then None
    else
      var prev := OldestIndex(ts[..|ts| - 1], bound);
      var best := if prev.Some? then ts[prev.value] else bound;
      if ts[|ts| - 1] < best then Some(|ts| - 1) else prev
  }

  /**
   * The scan finds nothing exactly when no value is below the bound, and
   * otherwise finds the first occurrence of the smallest value.
   */
  lemma {:induction false} OldestIndexIsFirstMinimum(ts: seq<int>, bound: int)
    ensures OldestIndex(ts, bound).None? <==> forall j :: 0 <= j < |ts| ==> ts[j] >= bound
    ensures var r := OldestIndex(ts, bound); r.Some? ==>
      && (forall j :: 0 <= j < |ts| ==> ts[r.value] <= ts[j])
      && (forall j :: 0 <= j < r.value ==> ts[r.value] < ts[j])
  {
    if ts != [] {
      var init := ts[..|ts| - 1];
      OldestIndexIsFirstMinimum(init, bound);
      assert forall j :: 0 <= j < |init| ==> init[j] == ts[j];
    }
  }

  /** The key `deleteOldest` removes, if any: the oldest one, unless that key is "" (falsy). */
  function OldestKey(order: seq<string>, entries: map<string, Entry>, now: int): Option<string>
    requires forall k :: k in order ==> k in entries
  {
    var i := OldestIndex(Stamps(order, entries), now);
    if i.Some? && order[i.value] != "" then Some(order[i.value]) else None
  }

  /**
   * The victim has the smallest timestamp of all entries, strictly below now,
   * and every key before it in insertion order is strictly younger; without the
   * key "" there is a victim exactly when some entry is older than now.
   */
  lemma OldestKeyIsOldest(order: seq<string>, entries: map<string, Entry>, now: int)
    requires forall k :: k in order ==> k in entries
    ensures var v := OldestKey(order, entries, now); v.Some? ==>
      && v.value in order && v.value != "" && entries[v.value].timestamp < now
      && (forall k :: k in order ==> entries[v.value].timestamp <= entries[k].timestamp)
      && (exists p :: 0 <= p < |order| && order[p] == v.value
                      && forall j :: 0 <= j < p ==> entries[order[j]].timestamp > entries[v.value].timestamp)
    ensures "" !in order ==>
      (OldestKey(order, entries, now).None? <==> forall k :: k in order ==> entries[k].timestamp >= now)
  {
    var ts := Stamps(order, entries);
    StampsAt(order, entries);
    OldestIndexIsFirstMinimum(ts, now);
    var i := OldestIndex(ts, now);
    if i.Some? {
      var p := i.value;
      assert forall k :: k in order ==> entries[order[p]].timestamp <= entries[k].timestamp by {
        forall k | k in order ensures entries[order[p]].timestamp <= entries[k].timestamp {
          var j :| 0 <= j < |order| && order[j] == k;
          assert ts[j] == entries[k].timestamp;
        }
      }
    }
    if i.None? {
      forall k | k in order ensures entries[k].timestamp >= now {
        var j :| 0 <= j < |order| && order[j] == k;
        assert ts[j] == entries[k].timestamp;
      }
    }
  }

  /** The keys of `keys` whose entries have not expired, in order. */
  function Unexpired(keys: seq<string>, entries: map<string, Entry>, now: int): (r: seq<string>)
    requires forall k :: k in keys ==> k in entries
    ensures |r| <= |keys|
  {
    if keys == [] then []
    else
      var last := keys[|keys| - 1];
      Unexpired(keys[..|keys| - 1], entries, now) + (if Expired(entries[last], now) then [] else [last])
  }

  lemma {:induction false} UnexpiredMembers(keys: seq<string>, entries: map<string, Entry>, now: int)
    requires forall k :: k in keys ==> k in entries
    ensures forall k :: k in Unexpired(keys, entries, now) <==> k in keys && !Expired(entries[k], now)
  {
    if keys != [] {
      var init := keys[..|keys| - 1];
      UnexpiredMembers(init, entries, now);
      assert keys == init + [keys[|keys| - 1]];
    }
  }

  lemma {:induction false} UnexpiredDistinct(keys: seq<string>, entries: map<string, Entry>, now: int)
    requires forall k :: k in keys ==> k in entries
    requires Distinct(keys)
    ensures Distinct(Unexpired(keys, entries, now))
  {
    if keys != [] {
      var init := keys[..|keys| - 1];
      var last := keys[|keys| - 1];
      assert Distinct(init);
      UnexpiredDistinct(init, entries, now);
      UnexpiredMembers(init, entries, now);
      assert last !in init;
    }
  }

  /** The entries that survive a sweep at `now`. */
  function Live(entries: map<string, Entry>, now: int): (r: map<string, Entry>)
    ensures forall k :: k in r <==> k in entries && !Expired(entries[k], now)
    ensures forall k :: k in r ==> r[k] == entries[k]
  {
    map k | k in entries && !Expired(entries[k], now) :: entries[k]
  }

  /** The sum of the hit counts of the entries of `keys`. */
  function TotalHits(keys: seq<string>, entries: map<string, Entry>): nat
    requires forall k :: k in keys ==> k in entries
  {
    if keys == [] then 0 else TotalHits(keys[..|keys| - 1], entries) + entries[keys[|keys| - 1]].hits
  }

  /** `get` on a snapshot of the map: the data of a present entry that has not expired. */
  function Lookup(entries: map<string, Entry>, key: string, now: int): Option<string> {
    if key in entries && !Expired(entries[key], now) then Some(entries[key].data) else None
  }

  /**
   * A key just set at time `written` reads back its data at `now` exactly when
   * `now - written` is at most the lifetime (24 hours when none is given).
   */
  lemma SetThenLookup(entries: map<string, Entry>, key: string, data: string, ttlHours: Option<int>, written: int, now: int)
    ensures Lookup(entries[key := NewEntry(data, ttlHours, written)], key, now) == Some(data)
        <==> now - written <= TtlMillis(ttlHours.GetOr(DefaultTtlHours))
  {
    NewEntryLifetime(data, ttlHours, written, now);
  }

  /** A read that hits leaves the next read's answer as it was. */
  lemma HitThenLookup(entries: map<string, Entry>, key: string, now: int, later: int)
    requires key in entries
    ensures Lookup(entries[key := Hit(entries[key])], key, later) == Lookup(entries, key, later)
  {
    HitKeepsEntry(entries[key], later);
  }

  /** `size >= maxEntries * 0.9`, on exact reals. */
  predicate NearCapacity(size: int, maxEntries: int) {
    size as real >= maxEntries as real * 0.9
  }

  /** The capacity test in integers; below it the next `set` evicts nothing. */
  lemma NearCapacityInIntegers(size: int, maxEntries: int)
    ensures NearCapacity(size, maxEntries) <==> 10 * size >= 9 * maxEntries
    ensures !NearCapacity(size, maxEntries) && maxEntries >= 0 ==> size < maxEntries
  {
  }

  /** `getStats` without the memory estimate and the hit rate. */
  datatype MemoryStats = MemoryStats(totalEntries: nat, totalHits: nat, oldestEntry: Option<int>, newestEntry: Option<int>)

  class MemoryCache {
    /** The map's keys in insertion order. */
    var order: seq<string>
    var entries: map<string, Entry>
    const maxEntries: int

    /** The order lists each key of the map once. */
    ghost predicate Valid()
      reads this
    {
      Distinct(order) && forall k :: k in entries <==> k in order
    }

    constructor(maxEntries: int)
      ensures Valid() && order == [] && entries == map[] && this.maxEntries == maxEntries
    {
      order := [];
      entries := map[];
      this.maxEntries := maxEntries;
    }

    /** `Map.prototype.delete`: removes the key from the map and from the order. */
    method Remove(key: string)
      requires Valid()
      modifies this
      ensures Valid()
      ensures entries == old(entries) - {key} && order == Without(old(order), key)
    {
      WithoutMembers(order, key);
      WithoutDistinct(order, key);
      entries := entries - {key};
      order := Without(order, key);
    }

    /** `Map.prototype.set`: a new key goes last, an existing key keeps its place. */
    method Put(key: string, e: Entry)
      requires Valid()
      modifies this
      ensures Valid()
      ensures entries == old(entries)[key := e]
      ensures order == if key in old(order) then old(order) else old(order) + [key]
    {
      if key !in order {
        order := order + [key];
      }
      entries := entries[key := e];
    }

    /** `set`: evicts the oldest entry first when the map is full, even when the key is present. */
    method Set(key: string, data: string, ttlHours: Option<int>, now: int)
      requires Valid()
      modifies this
      ensures Valid()
      ensures var victim := if old(|order|) >= maxEntries then OldestKey(old(order), old(entries), now) else None;
        var kept := if victim.Some? then Without(old(order), victim.value) else old(order);
        && entries == (if victim.Some? then old(entries) - {victim.value} else old(entries))[key := NewEntry(data, ttlHours, now)]
        && order == if key in kept then kept else kept + [key]
      ensures (&& 1 <= maxEntries && old(|order|) <= maxEntries && "" !in old(order)
               && forall k :: k in old(entries) ==> old(entries)[k].timestamp < now)
        ==> |order| <= maxEntries
    {
      ghost var before := order;
      if |order| >= maxEntries {
        OldestKeyIsOldest(order, entries, now);
        DeleteOldest(now);
      }
      ghost var middle := order;
      Put(key, NewEntry(data, ttlHours, now));
      WithoutDistinct(before, if OldestKey(before, old(entries), now).Some? then OldestKey(before, old(entries), now).value else "");
    }

    /** `get`: an expired entry is removed; a hit counts one more read. */
    method Get(key: string, now: int) returns (r: Option<string>)
      requires Valid()
      modifies this
      ensures Valid()
      ensures r == Lookup(old(entries), key, now)
      ensures key !in old(entries) ==> entries == old(entries) && order == old(order)
      ensures key in old(entries) && Expired(old(entries)[key], now) ==>
        entries == old(entries) - {key} && order == Without(old(order), key)
      ensures key in old(entries) && !Expired(old(entries)[key], now) ==>
        entries == old(entries)[key := Hit(old(entries)[key])] && order == old(order)
    {
      if key !in entries {
        return None;
      }
      var entry := entries[key];
      if Expired(entry, now) {
        Remove(key);
        return None;
      }
      entry := Hit(entry);
      Put(key, entry);
      return Some(entry.data);
    }

    /** `delete`: removes only `key`, and nothing when it is absent. */
    method Delete(key: string)
      requires Valid()
      modifies this
      ensures Valid()
      ensures entries == old(entries) - {key} && order == Without(old(order), key)
      ensures key !in old(entries) ==> entries == old(entries) && order == old(order)
    {
      WithoutMembers(order, key);
      Remove(key);
    }

    /** `deleteOldest`: removes the key the scan finds, unless it is "" (falsy). */
    method DeleteOldest(now: int)
      requires Valid()
      modifies this
      ensures Valid()
      ensures var v := OldestKey(old(order), old(entries), now);
        && (v.None? ==> entries == old(entries) && order == old(order))
        && (v.Some? ==> entries == old(entries) - {v.value} && order == Without(old(order), v.value))
    {
      var oldestKey := ScanOldest(order, entries, now);
      if oldestKey.Some? && oldestKey.value != "" {
        Remove(oldestKey.value);
      }
    }

    /** `cleanup`: removes exactly the expired entries and returns how many. */
    method Cleanup(now: int) returns (cleanedCount: nat)
      requires Valid()
      modifies this
      ensures Valid()
      ensures entries == Live(old(entries), now)
      ensures order == Unexpired(old(order), old(entries), now)
      ensures cleanedCount == |old(order)| - |order|
    {
      var kept, live;
      kept, live, cleanedCount := Sweep(order, entries, now);
      UnexpiredMembers(order, entries, now);
      UnexpiredDistinct(order, entries, now);
      order, entries := kept, live;
    }

    /** `getStats`, without the memory estimate and the hit rate. */
    method GetStats(now: int) returns (stats: MemoryStats)
      requires Valid()
      ensures |order| == 0 ==> stats == MemoryStats(0, 0, None, None)
      ensures |order| > 0 ==> stats == MemoryStats(|order|, TotalHits(order, entries),
        Some(Low(now, Stamps(order, entries))), Some(High(0, Stamps(order, entries))))
      ensures stats.oldestEntry.Some? <==> stats.newestEntry.Some?
      ensures stats.oldestEntry.Some? ==> stats.oldestEntry.value <= stats.newestEntry.value
    {
      stats := Summarize(order, entries, now);
    }

    /** `clear`: empties the map and returns how many entries it held. */
    method Clear() returns (count: nat)
      requires Valid()
      modifies this
      ensures Valid() && order == [] && entries == map[]
      ensures count == |old(order)|
    {
      count := |order|;
      order := [];
      entries := map[];
    }

    /** `isNearCapacity`: the map holds at least nine tenths of its capacity. */
    predicate IsNearCapacity(): (b: bool)
      reads this
      ensures b <==> 10 * |order| >= 9 * maxEntries
    {
      NearCapacityInIntegers(|order|, maxEntries);
      NearCapacity(|order|, maxEntries)
    }
  }

  /** One step of the `deleteOldest` scan. */
  lemma OldestIndexStep(ts: seq<int>, bound: int, i: nat)
    requires i < |ts|
    ensures var prev := OldestIndex(ts[..i], bound);
      var best := if prev.Some? then ts[prev.value] else bound;
      OldestIndex(ts[..i + 1], bound) == if ts[i] < best then Some(i) else prev
  {
    assert ts[..i + 1][..i] == ts[..i];
  }

  /**
   * The loop of `deleteOldest`: in insertion order, remember each key whose
   * timestamp is strictly below the oldest seen so far, starting from now.
   */
  method ScanOldest(keys: seq<string>, entries: map<string, Entry>, now: int) returns (oldestKey: Option<string>)
    requires forall k :: k in keys ==> k in entries
    ensures var i := OldestIndex(Stamps(keys, entries), now);
      oldestKey == if i.Some? then Some(keys[i.value]) else None
  {
    ghost var ts := Stamps(keys, entries);
    StampsAt(keys, entries);
    oldestKey := None;
    var oldestTime := now;
    ghost var found: Option<nat> := None;
    var i := 0;
    while i < |keys|
      invariant 0 <= i <= |keys|
      invariant found == OldestIndex(ts[..i], now)
      invariant found.Some? ==> found.value < i && oldestKey == Some(keys[found.value]) && oldestTime == ts[found.value]
      invariant found.None? ==> oldestKey.None? && oldestTime == now
    {
      var key := keys[i];
      OldestIndexStep(ts, now, i);
      if entries[key].timestamp < oldestTime {
        oldestTime := entries[key].timestamp;
        oldestKey := Some(key);
        found := Some(i);
      }
      i := i + 1;
    }
    assert ts[..i] == ts;
  }

  /**
   * The loop of `cleanup`: deletes each expired entry from the map and counts
   * it; the keys kept are the unexpired ones in order.
   */
  method Sweep(keys: seq<string>, entries: map<string, Entry>, now: int)
    returns (kept: seq<string>, live: map<string, Entry>, cleanedCount: nat)
    requires forall k :: k in entries <==> k in keys
    ensures kept == Unexpired(keys, entries, now)
    ensures live == Live(entries, now)
    ensures cleanedCount == |keys| - |kept|
  {
    kept := [];
    live := entries;
    cleanedCount := 0;
    var i := 0;
    while i < |keys|
      invariant 0 <= i <= |keys|
      invariant kept == Unexpired(keys[..i], entries, now)
      invariant cleanedCount == i - |kept|
      invariant forall k :: k in live <==> k in entries && !(k in keys[..i] && Expired(entries[k], now))
      invariant forall k :: k in live ==> live[k] == entries[k]
    {
      var key := keys[i];
      assert keys[..i + 1] == keys[..i] + [key];
      if Expired(entries[key], now) {
        live := live - {key};
        cleanedCount := cleanedCount + 1;
      } else {
        kept := kept + [key];
      }
      i := i + 1;
    }
    assert keys[..i] == keys;
    assert live == Live(entries, now);
  }

  /** One step of the `getStats` loop. */
  lemma SummaryStep(keys: seq<string>, entries: map<string, Entry>, now: int, i: nat)
    requires forall k :: k in keys ==> k in entries
    requires i < |keys|
    ensures var ts := Stamps(keys, entries); var t := entries[keys[i]].timestamp;
      && TotalHits(keys[..i + 1], entries) == TotalHits(keys[..i], entries) + entries[keys[i]].hits
      && Low(now, ts[..i + 1]) == (if t < Low(now, ts[..i]) then t else Low(now, ts[..i]))
      && High(0, ts[..i + 1]) == (if t > High(0, ts[..i]) then t else High(0, ts[..i]))
  {
    var ts := Stamps(keys, entries);
    StampsAt(keys, entries);
    assert keys[..i + 1][..i] == keys[..i];
    assert ts[..i + 1][..i] == ts[..i];
  }

  /**
   * The loop of `getStats`: the hit total and the running minimum (from now)
   * and maximum (from 0) of the timestamps; zeros and no dates when empty.
   */
  method Summarize(keys: seq<string>, entries: map<string, Entry>, now: int) returns (stats: MemoryStats)
    requires forall k :: k in keys ==> k in entries
    ensures |keys| == 0 ==> stats == MemoryStats(0, 0, None, None)
    ensures |keys| > 0 ==> stats == MemoryStats(|keys|, TotalHits(keys, entries),
      Some(Low(now, Stamps(keys, entries))), Some(High(0, Stamps(keys, entries))))
    ensures stats.oldestEntry.Some? <==> stats.newestEntry.Some?
    ensures stats.oldestEntry.Some? ==> stats.oldestEntry.value <= stats.newestEntry.value
  {
    if |keys| == 0 {
      return MemoryStats(0, 0, None, None);
    }
    ghost var ts := Stamps(keys, entries);
    var totalHits := 0;
    var oldestTime := now;
    var newestTime := 0;
    var i := 0;
    while i < |keys|
      invariant 0 <= i <= |keys|
      invariant totalHits == TotalHits(keys[..i], entries)
      invariant oldestTime == Low(now, ts[..i])
      invariant newestTime == High(0, ts[..i])
    {
      var entry := entries[keys[i]];
      SummaryStep(keys, entries, now, i);
      totalHits := totalHits + entry.hits;
      oldestTime := if entry.timestamp < oldestTime then entry.timestamp else oldestTime;
      newestTime := if entry.timestamp > newestTime then entry.timestamp else newestTime;
      i := i + 1;
    }
    assert keys[..i] == keys;
    assert ts[..i] == ts;
    LowBelowHigh(now, 0, ts);
    stats := MemoryStats(|keys|, totalHits, Some(oldestTime), Some(newestTime));
  }
}
