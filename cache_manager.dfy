/**
 * The cache facade: on first use it picks the in-memory backend in a
 * serverless environment and the file backend otherwise, remembers that
 * choice for the life of the process, and routes every operation to it.
 * The environment is read at each call, as `process.env` would be.
 */
module CacheManager {
  import opened Wrappers
  import opened Text
  import opened CacheEntries
  import opened Environment
  import opened MemoryCacheStore
  import opened LocalCacheStore

  /** `isServerless`: Vercel, AWS Lambda, Google Cloud Functions or Cloud Run. */
  predicate IsServerless(env: Env) {
    || Equals(env, "VERCEL", "1")
    || Defined(env, "AWS_LAMBDA_FUNCTION_NAME")
    || Defined(env, "FUNCTION_TARGET")
    || Defined(env, "K_SERVICE")
  }

  /** Any of the three platform variables counts even when set to ""; VERCEL counts only as "1". */
  lemma ServerlessMarkers(env: Env)
    ensures Defined(env, "K_SERVICE") && env["K_SERVICE"] == "" ==> IsServerless(env)
    ensures (Equals(env, "VERCEL", "0") && !Defined(env, "AWS_LAMBDA_FUNCTION_NAME")
             && !Defined(env, "FUNCTION_TARGET") && !Defined(env, "K_SERVICE")) ==> !IsServerless(env)
    ensures map[] == env ==> !IsServerless(env)
  {
  }

  datatype Backend = Memory | Files

  /** The backend a first call picks. */
  function Choose(env: Env): (b: Backend)
    ensures b == Memory <==> IsServerless(env)
  {
    if IsServerless(env) then Memory else Files
  }

  /** What `getStats` returns: each backend has its own shape. */
  datatype Stats = OfMemory(memoryStats: MemoryStats) | OfFiles(fileStats: FileStats)

  class Cache {
    /** `cacheInstance`: None until the first call. */
    var instance: Option<Backend>
    const memory: MemoryCache
    const local: LocalCache

    ghost predicate Valid()
      reads this, memory, local
    {
      memory.Valid() && local.Valid()
    }

    constructor(memory: MemoryCache, local: LocalCache)
      requires memory.Valid() && local.Valid()
      ensures Valid() && instance == None && this.memory == memory && this.local == local
    {
      instance := None;
      this.memory := memory;
      this.local := local;
    }

    /** `getCacheInstance`: the remembered backend, or the one the environment picks, remembered from now on. */
    method GetCacheInstance(env: Env) returns (b: Backend)
      modifies this`instance
      ensures old(instance).Some? ==> b == old(instance).value && instance == old(instance)
      ensures old(instance).None? ==> b == Choose(env) && instance == Some(b)
    {
      if instance.Some? {
        return instance.value;
      }
      b := Choose(env);
      instance := Some(b);
    }

    /** The backend in use after a call made in environment `env`. */
    function Routed(env: Env): Backend
      reads this
    {
      if instance.Some? then instance.value else Choose(env)
    }

    /** `cache.get`: the chosen backend's `get`, with its answer and its effect on that store. */
    method Get(env: Env, key: string, now: int, writeOk: bool) returns (r: Option<string>)
      requires Valid()
      modifies this`instance, memory, local
      ensures Valid() && instance == Some(old(Routed(env)))
      ensures old(Routed(env)) == Memory ==>
        && r == Lookup(old(memory.entries), key, now)
        && (key !in old(memory.entries) ==> memory.entries == old(memory.entries) && memory.order == old(memory.order))
        && (key in old(memory.entries) && Expired(old(memory.entries)[key], now) ==>
              memory.entries == old(memory.entries) - {key} && memory.order == Without(old(memory.order), key))
        && (key in old(memory.entries) && !Expired(old(memory.entries)[key], now) ==>
              memory.entries == old(memory.entries)[key := Hit(old(memory.entries)[key])] && memory.order == old(memory.order))
        && local.files == old(local.files) && local.names == old(local.names)
      ensures old(Routed(env)) == Files ==>
        && (var name := FileName(key);
            && (name !in old(local.files) ==> r == None && local.files == old(local.files) && local.names == old(local.names))
            && (name in old(local.files) && (Doomed(old(local.files)[name], now) || !writeOk) ==>
                  r == None && local.files == old(local.files) - {name} && local.names == Without(old(local.names), name))
            && (name in old(local.files) && !Doomed(old(local.files)[name], now) && writeOk ==>
                  var e := old(local.files)[name].content.entry;
                  r == Some(e.data) && local.files == old(local.files)[name := File(Stored(Hit(e)), now)]
                  && local.names == old(local.names)))
        && memory.entries == old(memory.entries) && memory.order == old(memory.order)
    {
      var b := GetCacheInstance(env);
      if b == Memory {
        r := memory.Get(key, now);
      } else {
        r := local.Get(key, now, writeOk);
      }
    }

    /**
     * `cache.set`: `ttlHours` is passed on as given, None (undefined) included,
     * and the chosen backend applies its default of 24 hours.
     */
    method Set(env: Env, key: string, data: string, ttlHours: Option<int>, now: int, writeOk: bool)
      requires Valid()
      modifies this`instance, memory, local
      ensures Valid() && instance == Some(old(Routed(env)))
      ensures old(Routed(env)) == Memory ==>
        && (var victim := if old(|memory.order|) >= memory.maxEntries then OldestKey(old(memory.order), old(memory.entries), now) else None;
            var kept := if victim.Some? then Without(old(memory.order), victim.value) else old(memory.order);
            && memory.entries == (if victim.Some? then old(memory.entries) - {victim.value} else old(memory.entries))[key := NewEntry(data, ttlHours, now)]
            && memory.order == if key in kept then kept else kept + [key])
        && local.files == old(local.files) && local.names == old(local.names)
      ensures old(Routed(env)) == Files ==>
        && (!writeOk ==> local.files == old(local.files) && local.names == old(local.names))
        && (writeOk ==>
              var name := FileName(key);
              var files1 := old(local.files)[name := File(Stored(NewEntry(data, ttlHours, now)), now)];
              var names1 := if name in old(local.names) then old(local.names) else old(local.names) + [name];
              var gone := Victims(names1, files1, local.maxEntries);
              && local.names == Drop(names1, gone)
              && (forall n :: n in local.files <==> n in files1 && n !in gone)
              && (forall n :: n in local.files ==> local.files[n] == files1[n]))
        && memory.entries == old(memory.entries) && memory.order == old(memory.order)
    {
      var b := GetCacheInstance(env);
      if b == Memory {
        memory.Set(key, data, ttlHours, now);
      } else {
        local.Set(key, data, ttlHours, now, writeOk);
      }
    }

    /** `cache.delete`. */
    method Delete(env: Env, key: string)
      requires Valid()
      modifies this`instance, memory, local
      ensures Valid() && instance == Some(old(Routed(env)))
      ensures old(Routed(env)) == Memory ==>
        && memory.entries == old(memory.entries) - {key} && memory.order == Without(old(memory.order), key)
        && local.files == old(local.files) && local.names == old(local.names)
      ensures old(Routed(env)) == Files ==>
        && local.files == old(local.files) - {FileName(key)} && local.names == Without(old(local.names), FileName(key))
        && memory.entries == old(memory.entries) && memory.order == old(memory.order)
    {
      var b := GetCacheInstance(env);
      if b == Memory {
        memory.Delete(key);
      } else {
        local.Delete(key);
      }
    }

    /** `cache.cleanup`: the chosen backend's sweep and its count. */
    method Cleanup(env: Env, now: int) returns (count: nat)
      requires Valid()
      modifies this`instance, memory, local
      ensures Valid() && instance == Some(old(Routed(env)))
      ensures old(Routed(env)) == Memory ==>
        && memory.entries == Live(old(memory.entries), now)
        && memory.order == Unexpired(old(memory.order), old(memory.entries), now)
        && count == |old(memory.order)| - |memory.order|
        && local.files == old(local.files) && local.names == old(local.names)
      ensures old(Routed(env)) == Files ==>
        && (var gone := Swept(old(local.names), old(local.files), now);
            && local.names == Drop(old(local.names), gone)
            && (forall n :: n in local.files <==> n in old(local.files) && n !in gone)
            && (forall n :: n in local.files ==> local.files[n] == old(local.files)[n])
            && count == |gone|)
        && memory.entries == old(memory.entries) && memory.order == old(memory.order)
    {
      var b := GetCacheInstance(env);
      if b == Memory {
        count := memory.Cleanup(now);
      } else {
        count := local.Cleanup(now);
      }
    }

    /** `cache.clear`. */
    method Clear(env: Env) returns (count: nat)
      requires Valid()
      modifies this`instance, memory, local
      ensures Valid() && instance == Some(old(Routed(env)))
      ensures old(Routed(env)) == Memory ==>
        && count == |old(memory.order)| && memory.entries == map[] && memory.order == []
        && local.files == old(local.files) && local.names == old(local.names)
      ensures old(Routed(env)) == Files ==>
        && (var gone := JsonNames(old(local.names));
            && local.names == Drop(old(local.names), gone)
            && (forall n :: n in local.files <==> n in old(local.files) && !IsJson(n))
            && (forall n :: n in local.files ==> local.files[n] == old(local.files)[n])
            && count == |gone|)
        && memory.entries == old(memory.entries) && memory.order == old(memory.order)
    {
      var b := GetCacheInstance(env);
      if b == Memory {
        count := memory.Clear();
      } else {
        count := local.Clear();
      }
    }

    /** `cache.getStats`: the chosen backend's statistics, in that backend's shape. */
    method GetStats(env: Env, now: int) returns (stats: Stats)
      requires Valid()
      modifies this`instance
      ensures Valid() && instance == Some(old(Routed(env)))
      ensures stats.OfMemory? <==> old(Routed(env)) == Memory
      ensures stats.OfMemory? ==>
        && (|memory.order| == 0 ==> stats.memoryStats == MemoryStats(0, 0, None, None))
        && (|memory.order| > 0 ==> stats.memoryStats == MemoryStats(|memory.order|, TotalHits(memory.order, memory.entries),
              Some(Low(now, Stamps(memory.order, memory.entries))), Some(High(0, Stamps(memory.order, memory.entries)))))
      ensures stats.OfFiles? ==>
        var json := JsonNames(local.names);
        && stats.fileStats.totalFiles == |json|
        && (|json| == 0 ==> stats.fileStats.oldestFile.None? && stats.fileStats.newestFile.None?)
        && (|json| > 0 ==>
              && stats.fileStats.oldestFile == Some(MinOf(Mtimes(json, local.files)))
              && stats.fileStats.newestFile == Some(MaxOf(Mtimes(json, local.files))))
    {
      var b := GetCacheInstance(env);
      if b == Memory {
        var s := memory.GetStats(now);
        stats := OfMemory(s);
      } else {
        var s := local.GetStats();
        stats := OfFiles(s);
      }
    }
  }
}
