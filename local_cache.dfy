/**
 * The file-backed cache used outside serverless deployments: one JSON file
 * `<key>.json` per entry in the cache directory, expiry on read, a sweep of
 * expired and unreadable files, and eviction of the least recently written
 * files once there are more than `maxEntries`.
 *
 * The directory is a map from file name to file, together with the order in
 * which `readdirSync` lists the names; a new file is listed last. A failed
 * write is the `writeOk` argument set to false; unlinking always succeeds.
 */
module LocalCacheStore {
  import opened Wrappers
  import opened Text
  import opened CacheEntries
  import opened Ranking

  /** The capacity of the shared instance. */
  const DefaultMaxEntries := 1000

  /** What `JSON.parse` makes of a file: an entry, or a parse (or read) error. */
  datatype Content = Stored(entry: Entry) | Unreadable

  /** A file of the cache directory and its modification time. */
  datatype File = File(content: Content, mtime: int)

  /** `getFilePath` inside the cache directory: `${key}.json`. */
  function FileName(key: string): string {
    key + ".json"
  }

  /** `file.endsWith('.json')`. */
  predicate IsJson(name: string) {
    |name| >= 5 && name[|name| - 5..] == ".json"
  }

  /** Every key names a cache file, and different keys name different files. */
  lemma FileNameOfKey(a: string, b: string)
    ensures IsJson(FileName(a))
    ensures FileName(a) == FileName(b) ==> a == b
  {
    assert FileName(a)[|FileName(a)| - 5..] == ".json";
    if FileName(a) == FileName(b) {
      assert a == FileName(a)[..|a|] && b == FileName(b)[..|b|];
    }
  }

  /** The `.json` names of a listing, in order (`files.filter(f => f.endsWith('.json'))`). */
  function JsonNames(names: seq<string>): (r: seq<string>)
    ensures |r| <= |names|
    ensures forall n :: n in r ==> n in names
  {
    if names == [] then []
    else
      var last := names[|names| - 1];
      JsonNames(names[..|names| - 1]) + (if IsJson(last) then [last] else [])
  }

  /** One more listed name adds it to the JSON names exactly when it is one. */
  lemma JsonNamesStep(names: seq<string>, i: nat)
    requires i < |names|
    ensures JsonNames(names[..i + 1]) == JsonNames(names[..i]) + (if IsJson(names[i]) then [names[i]] else [])
  {
    assert names[..i + 1][..i] == names[..i];
  }

  lemma {:induction false} JsonNamesMembers(names: seq<string>)
    ensures forall n :: n in JsonNames(names) <==> n in names && IsJson(n)
  {
    if names != [] {
      JsonNamesMembers(names[..|names| - 1]);
      assert names == names[..|names| - 1] + [names[|names| - 1]];
    }
  }

  lemma {:induction false} JsonNamesDistinct(names: seq<string>)
    requires Distinct(names)
    ensures Distinct(JsonNames(names))
  {
    if names != [] {
      var init := names[..|names| - 1];
      var last := names[|names| - 1];
      assert Distinct(init);
      JsonNamesDistinct(init);
      JsonNamesMembers(init);
      assert last !in init;
    }
  }

  /** The sort key of `fileInfos.sort((a, b) => a.mtime - b.mtime)`: a file's mtime. */
  function MtimeKey(files: map<string, File>): string -> int {
    n => if n in files then files[n].mtime else 0
  }

  /**
   * The files `checkAndCleanOldest` deletes: none while there are at most
   * `maxEntries` JSON files, else the first `count - maxEntries` of the JSON
   * files sorted by mtime (stable, so ties keep listing order).
   */
  function Victims(names: seq<string>, files: map<string, File>, maxEntries: nat): seq<string> {
    var json := JsonNames(names);
    if |json| <= maxEntries then [] else SortBy(json, MtimeKey(files))[..|json| - maxEntries]
  }

  /** The sorted JSON names are the JSON names, each once, in mtime order. */
  lemma SortedListing(json: seq<string>, key: string -> int)
    requires Distinct(json)
    ensures var sorted := SortBy(json, key);
      && SortedBy(sorted, key) && Distinct(sorted)
      && forall x :: x in sorted <==> x in json
  {
    var sorted := SortBy(json, key);
    SortByOrders(json, key);
    PermutationDistinct(json, sorted);
    forall x ensures x in sorted <==> x in json {
      assert x in sorted <==> x in multiset(sorted);
      assert x in json <==> x in multiset(json);
    }
  }

  /** In a sorted sequence, what a prefix holds has no larger key than what it leaves. */
  lemma PrefixFirst<T>(sorted: seq<T>, key: T -> int, n: nat)
    requires SortedBy(sorted, key) && n <= |sorted|
    ensures forall a, b :: a in sorted[..n] && b in sorted && b !in sorted[..n] ==> key(a) <= key(b)
  {
    forall a, b | a in sorted[..n] && b in sorted && b !in sorted[..n] ensures key(a) <= key(b) {
      var i :| 0 <= i < n && sorted[..n][i] == a;
      var j :| 0 <= j < |sorted| && sorted[j] == b;
      assert forall k :: 0 <= k < n ==> sorted[..n][k] == sorted[k];
      assert j >= n;
    }
  }

  /**
   * Eviction leaves exactly `maxEntries` JSON files when there are more: the
   * victims are distinct JSON files of the listing, and none was written later
   * than a JSON file that is kept.
   */
  lemma VictimsAreOldest(names: seq<string>, files: map<string, File>, maxEntries: nat)
    requires Distinct(names) && forall n :: n in names ==> n in files
    ensures var v := Victims(names, files, maxEntries); var json := JsonNames(names);
      && |v| == (if |json| <= maxEntries then 0 else |json| - maxEntries)
      && Distinct(v)
      && (forall n :: n in v ==> n in names && IsJson(n))
      && (forall a, b :: a in v && b in json && b !in v ==>
            a in files && b in files && files[a].mtime <= files[b].mtime)
  {
    var json := JsonNames(names);
    JsonNamesMembers(names);
    JsonNamesDistinct(names);
    var v := Victims(names, files, maxEntries);
    if |json| > maxEntries {
      var n := |json| - maxEntries;
      assert v == SortBy(json, MtimeKey(files))[..n];
      OldestFirst(json, files, n);
      assert |v| == n;
    } else {
      assert v == [];
    }
  }

  /** The first `n` JSON names by mtime are distinct and none is newer than one left behind. */
  lemma OldestFirst(json: seq<string>, files: map<string, File>, n: nat)
    requires Distinct(json) && n <= |json| && forall x :: x in json ==> x in files
    ensures var v := SortBy(json, MtimeKey(files))[..n];
      && Distinct(v)
      && (forall x :: x in v ==> x in json)
      && (forall a, b :: a in v && b in json && b !in v ==>
            a in files && b in files && files[a].mtime <= files[b].mtime)
  {
    var key := MtimeKey(files);
    var sorted := SortBy(json, key);
    SortedListing(json, key);
    PrefixFirst(sorted, key, n);
    forall a, b | a in sorted[..n] && b in json && b !in sorted[..n]
      ensures a in files && b in files && files[a].mtime <= files[b].mtime
    {
      assert a in sorted && b in sorted;
      assert key(a) <= key(b);
    }
  }

  /** The names of `names` that are not in `gone`, in order. */
  function Drop(names: seq<string>, gone: seq<string>): (r: seq<string>)
    ensures |r| <= |names|
  {
    if names == [] then [] else (if names[0] in gone then [] else [names[0]]) + Drop(names[1..], gone)
  }

  lemma {:induction false} DropMembers(names: seq<string>, gone: seq<string>)
    ensures forall n :: n in Drop(names, gone) <==> n in names && n !in gone
  {
    if names != [] {
      DropMembers(names[1..], gone);
      assert names == [names[0]] + names[1..];
    }
  }

  lemma {:induction false} DropDistinct(names: seq<string>, gone: seq<string>)
    requires Distinct(names)
    ensures Distinct(Drop(names, gone))
  {
    if names != [] {
      assert Distinct(names[1..]);
      DropDistinct(names[1..], gone);
      DropMembers(names[1..], gone);
      assert names[0] !in names[1..];
      var r := Drop(names, gone);
      var t := Drop(names[1..], gone);
      if names[0] !in gone {
        assert forall i :: 0 < i < |r| ==> r[i] == t[i - 1];
      }
    }
  }

  /** Unlinking one more name. */
  lemma {:induction false} DropStep(names: seq<string>, gone: seq<string>, x: string)
    ensures Without(Drop(names, gone), x) == Drop(names, gone + [x])
  {
    if names != [] {
      var n0 := names[0];
      DropStep(names[1..], gone, x);
      var t := Drop(names[1..], gone);
      var t2 := Drop(names[1..], gone + [x]);
      assert Without(t, x) == t2;
      assert n0 in gone + [x] <==> n0 in gone || n0 == x;
      if n0 in gone {
        assert Drop(names, gone) == t;
        assert Drop(names, gone + [x]) == t2;
      } else if n0 == x {
        var r := [n0] + t;
        assert Drop(names, gone) == r;
        assert r[0] == x && r[1..] == t;
        assert Without(r, x) == Without(t, x);
        assert Drop(names, gone + [x]) == t2;
      } else {
        var r := [n0] + t;
        assert Drop(names, gone) == r;
        assert r[0] == n0 && r[1..] == t;
        assert Without(r, x) == [n0] + Without(t, x);
        assert Drop(names, gone + [x]) == [n0] + t2;
      }
    }
  }

  lemma {:induction false} DropNothing(names: seq<string>)
    ensures Drop(names, []) == names
  {
    if names != [] {
      DropNothing(names[1..]);
      assert names == [names[0]] + names[1..];
    }
  }

  /** What the sweep removes: a file that cannot be parsed or whose entry expired. */
  predicate Doomed(f: File, now: int) {
    f.content.Unreadable? || Expired(f.content.entry, now)
  }

  /** The JSON files the sweep of `cleanup` deletes, in listing order. */
  function Swept(names: seq<string>, files: map<string, File>, now: int): (r: seq<string>)
    requires forall n :: n in names ==> n in files
    ensures |r| <= |names|
  {
    if names == [] then []
    else
      var n := names[|names| - 1];
      Swept(names[..|names| - 1], files, now) + (if IsJson(n) && Doomed(files[n], now) then [n] else [])
  }

  lemma {:induction false} SweptMembers(names: seq<string>, files: map<string, File>, now: int)
    requires forall n :: n in names ==> n in files
    ensures forall n :: n in Swept(names, files, now) <==> n in names && IsJson(n) && Doomed(files[n], now)
  {
    if names != [] {
      var init := names[..|names| - 1];
      SweptMembers(init, files, now);
      assert names == init + [names[|names| - 1]];
    }
  }

  /** `getStats` without the byte total. */
  datatype FileStats = FileStats(totalFiles: nat, oldestFile: Option<int>, newestFile: Option<int>)

  /** The mtimes of the files, in order. */
  function Mtimes(names: seq<string>, files: map<string, File>): (r: seq<int>)
    requires forall n :: n in names ==> n in files
    ensures |r| == |names|
  {
    if names == [] then [] else Mtimes(names[..|names| - 1], files) + [files[names[|names| - 1]].mtime]
  }

  lemma {:induction false} MtimesAt(names: seq<string>, files: map<string, File>)
    requires forall n :: n in names ==> n in files
    ensures forall j :: 0 <= j < |names| ==> Mtimes(names, files)[j] == files[names[j]].mtime
  {
    if names != [] {
      var init := names[..|names| - 1];
      MtimesAt(init, files);
      assert forall j :: 0 <= j < |init| ==> init[j] == names[j];
    }
  }

  /**
   * The reported oldest and newest times are mtimes of actual JSON files, the
   * oldest no later than any JSON file and the newest no earlier.
   */
  lemma StatsBracketFiles(names: seq<string>, files: map<string, File>)
    requires forall n :: n in names ==> n in files
    requires |JsonNames(names)| > 0
    ensures var json := JsonNames(names); var m := Mtimes(json, files);
      && (forall n :: n in json ==> MinOf(m) <= files[n].mtime <= MaxOf(m))
      && (exists n :: n in json && files[n].mtime == MinOf(m))
      && (exists n :: n in json && files[n].mtime == MaxOf(m))
  {
    var json := JsonNames(names);
    var m := Mtimes(json, files);
    MtimesAt(json, files);
    MinOfIsMinimum(m);
    MaxOfIsMaximum(m);
    forall n | n in json ensures MinOf(m) <= files[n].mtime <= MaxOf(m) {
      var j :| 0 <= j < |json| && json[j] == n;
      assert m[j] == files[n].mtime;
    }
    var i :| 0 <= i < |m| && m[i] == MinOf(m);
    assert json[i] in json;
    var k :| 0 <= k < |m| && m[k] == MaxOf(m);
    assert json[k] in json;
  }

  /** `files2` is `files` with exactly the names in `gone` unlinked. */
  ghost predicate Unlinked(files: map<string, File>, files2: map<string, File>, gone: seq<string>) {
    && (forall n :: n in files2 <==> n in files && n !in gone)
    && (forall n :: n in files2 ==> files2[n] == files[n])
  }

  lemma UnlinkStep(files: map<string, File>, files2: map<string, File>, gone: seq<string>, x: string)
    requires Unlinked(files, files2, gone)
    ensures Unlinked(files, files2 - {x}, gone + [x])
  {
  }

  /** The loop of `checkAndCleanOldest`: unlinks each victim in turn. */
  method UnlinkAll(names: seq<string>, files: map<string, File>, gone: seq<string>)
    returns (names2: seq<string>, files2: map<string, File>)
    ensures names2 == Drop(names, gone)
    ensures forall n :: n in files2 <==> n in files && n !in gone
    ensures forall n :: n in files2 ==> files2[n] == files[n]
  {
    names2, files2 := names, files;
    DropNothing(names);
    var i := 0;
    while i < |gone|
      invariant 0 <= i <= |gone|
      invariant names2 == Drop(names, gone[..i])
      invariant Unlinked(files, files2, gone[..i])
    {
      DropStep(names, gone[..i], gone[i]);
      UnlinkStep(files, files2, gone[..i], gone[i]);
      assert gone[..i + 1] == gone[..i] + [gone[i]];
      names2 := Without(names2, gone[i]);
      files2 := files2 - {gone[i]};
      i := i + 1;
    }
    assert gone[..i] == gone;
  }

  /**
   * The loop of `cleanup`: skips names not ending in `.json`, unlinks the
   * unreadable and the expired files and counts them.
   */
  method SweepDir(listing: seq<string>, files: map<string, File>, now: int)
    returns (names2: seq<string>, files2: map<string, File>, cleanedCount: nat)
    requires forall n :: n in listing ==> n in files
    ensures var gone := Swept(listing, files, now);
      && names2 == Drop(listing, gone)
      && (forall n :: n in files2 <==> n in files && n !in gone)
      && (forall n :: n in files2 ==> files2[n] == files[n])
      && cleanedCount == |gone|
  {
    names2, files2 := listing, files;
    ghost var gone: seq<string> := [];
    cleanedCount := 0;
    DropNothing(listing);
    var i := 0;
    while i < |listing|
      invariant 0 <= i <= |listing|
      invariant gone == Swept(listing[..i], files, now)
      invariant cleanedCount == |gone|
      invariant names2 == Drop(listing, gone)
      invariant Unlinked(files, files2, gone)
    {
      var file := listing[i];
      assert listing[..i + 1][..i] == listing[..i];
      if IsJson(file) && Doomed(files[file], now) {
        DropStep(listing, gone, file);
        UnlinkStep(files, files2, gone, file);
        names2 := Without(names2, file);
        files2 := files2 - {file};
        gone := gone + [file];
        cleanedCount := cleanedCount + 1;
      }
      i := i + 1;
    }
    assert listing[..i] == listing;
  }

  /** The loop of `clear`: unlinks every `.json` file and counts them. */
  method ClearDir(listing: seq<string>, files: map<string, File>)
    returns (names2: seq<string>, files2: map<string, File>, deletedCount: nat)
    ensures var gone := JsonNames(listing);
      && names2 == Drop(listing, gone)
      && (forall n :: n in files2 <==> n in files && n !in gone)
      && (forall n :: n in files2 ==> files2[n] == files[n])
      && deletedCount == |gone|
  {
    names2, files2 := listing, files;
    ghost var gone: seq<string> := [];
    deletedCount := 0;
    DropNothing(listing);
    var i := 0;
    while i < |listing|
      invariant 0 <= i <= |listing|
      invariant gone == JsonNames(listing[..i])
      invariant deletedCount == |gone|
      invariant names2 == Drop(listing, gone)
      invariant Unlinked(files, files2, gone)
    {
      var file := listing[i];
      JsonNamesStep(listing, i);
      if IsJson(file) {
        DropStep(listing, gone, file);
        UnlinkStep(files, files2, gone, file);
        names2 := Without(names2, file);
        files2 := files2 - {file};
        gone := gone + [file];
        deletedCount := deletedCount + 1;
      }
      i := i + 1;
    }
    assert listing[..i] == listing;
  }

  /** The loop of `getStats`: the mtimes of the JSON files, then their minimum and maximum. */
  method Summarize(listing: seq<string>, files: map<string, File>) returns (stats: FileStats)
    requires forall n :: n in listing ==> n in files
    ensures var json := JsonNames(listing);
      && stats.totalFiles == |json|
      && (|json| == 0 ==> stats.oldestFile.None? && stats.newestFile.None?)
      && (|json| > 0 ==>
            && stats.oldestFile == Some(MinOf(Mtimes(json, files)))
            && stats.newestFile == Some(MaxOf(Mtimes(json, files))))
  {
    var jsonFiles := JsonNames(listing);
    var mtimes: seq<int> := [];
    var i := 0;
    while i < |jsonFiles|
      invariant 0 <= i <= |jsonFiles|
      invariant mtimes == Mtimes(jsonFiles[..i], files)
    {
      assert jsonFiles[..i + 1][..i] == jsonFiles[..i];
      mtimes := mtimes + [files[jsonFiles[i]].mtime];
      i := i + 1;
    }
    assert jsonFiles[..i] == jsonFiles;
    if |mtimes| > 0 {
      stats := FileStats(|jsonFiles|, Some(MinOf(mtimes)), Some(MaxOf(mtimes)));
    } else {
      stats := FileStats(|jsonFiles|, None, None);
    }
  }

  class LocalCache {
    /** The directory listing, in `readdirSync` order. */
    var names: seq<string>
    var files: map<string, File>
    const maxEntries: nat

    /** The listing names each file of the directory once. */
    ghost predicate Valid()
      reads this
    {
      Distinct(names) && forall n :: n in files <==> n in names
    }

    /** The cache over an existing directory. */
    constructor(maxEntries: nat, names: seq<string>, files: map<string, File>)
      requires Distinct(names) && forall n :: n in files <==> n in names
      ensures Valid() && this.names == names && this.files == files && this.maxEntries == maxEntries
    {
      this.names := names;
      this.files := files;
      this.maxEntries := maxEntries;
    }

    /** `writeFileSync`: creates or replaces the file; a new name is listed last. */
    method Write(name: string, f: File)
      requires Valid()
      modifies this
      ensures Valid()
      ensures files == old(files)[name := f]
      ensures names == if name in old(names) then old(names) else old(names) + [name]
    {
      if name !in names {
        names := names + [name];
      }
      files := files[name := f];
    }

    /** `unlinkSync`. */
    method Unlink(name: string)
      requires Valid()
      modifies this
      ensures Valid()
      ensures files == old(files) - {name} && names == Without(old(names), name)
    {
      WithoutMembers(names, name);
      WithoutDistinct(names, name);
      files := files - {name};
      names := Without(names, name);
    }

    /** After unlinking `gone` from a valid directory it is still valid. */
    method Restore(names2: seq<string>, files2: map<string, File>, gone: seq<string>)
      requires Valid()
      requires names2 == Drop(names, gone)
      requires forall n :: n in files2 <==> n in files && n !in gone
      modifies this
      ensures Valid() && names == names2 && files == files2
    {
      DropDistinct(names, gone);
      DropMembers(names, gone);
      names, files := names2, files2;
    }

    /** `set`: writes the entry, then evicts as `checkAndCleanOldest` does; a failed write changes nothing. */
    method Set(key: string, data: string, ttlHours: Option<int>, now: int, writeOk: bool)
      requires Valid()
      modifies this
      ensures Valid()
      ensures !writeOk ==> files == old(files) && names == old(names)
      ensures writeOk ==>
        var name := FileName(key);
        var files1 := old(files)[name := File(Stored(NewEntry(data, ttlHours, now)), now)];
        var names1 := if name in old(names) then old(names) else old(names) + [name];
        var gone := Victims(names1, files1, maxEntries);
        && names == Drop(names1, gone)
        && (forall n :: n in files <==> n in files1 && n !in gone)
        && (forall n :: n in files ==> files[n] == files1[n])
    {
      if writeOk {
        Write(FileName(key), File(Stored(NewEntry(data, ttlHours, now)), now));
        CheckAndCleanOldest();
      }
    }

    /** `checkAndCleanOldest`: deletes the victims, the least recently written JSON files. */
    method CheckAndCleanOldest()
      requires Valid()
      modifies this
      ensures Valid()
      ensures var gone := Victims(old(names), old(files), maxEntries);
        && names == Drop(old(names), gone)
        && (forall n :: n in files <==> n in old(files) && n !in gone)
        && (forall n :: n in files ==> files[n] == old(files)[n])
    {
      var gone := Victims(names, files, maxEntries);
      var names2, files2 := UnlinkAll(names, files, gone);
      Restore(names2, files2, gone);
    }

    /**
     * `get`: a missing file gives None; an unreadable or expired file is
     * deleted and gives None; a hit rewrites the file with one more hit (so
     * its mtime becomes now) and gives the data, and if that write fails the
     * file is deleted and the answer is None.
     */
    method Get(key: string, now: int, writeOk: bool) returns (r: Option<string>)
      requires Valid()
      modifies this
      ensures Valid()
      ensures var name := FileName(key);
        && (name !in old(files) ==> r == None && files == old(files) && names == old(names))
        && (name in old(files) && (Doomed(old(files)[name], now) || !writeOk) ==>
              r == None && files == old(files) - {name} && names == Without(old(names), name))
        && (name in old(files) && !Doomed(old(files)[name], now) && writeOk ==>
              var e := old(files)[name].content.entry;
              r == Some(e.data) && files == old(files)[name := File(Stored(Hit(e)), now)] && names == old(names))
    {
      var name := FileName(key);
      if name !in files {
        return None;
      }
      match files[name].content
      case Unreadable =>
        Delete(key);
        return None;
      case Stored(entry) =>
        if Expired(entry, now) {
          Delete(key);
          return None;
        }
        if !writeOk {
          Delete(key);
          return None;
        }
        Write(name, File(Stored(Hit(entry)), now));
        return Some(entry.data);
    }

    /** `delete`: unlinks the key's file if it exists, and otherwise does nothing. */
    method Delete(key: string)
      requires Valid()
      modifies this
      ensures Valid()
      ensures files == old(files) - {FileName(key)} && names == Without(old(names), FileName(key))
      ensures FileName(key) !in old(files) ==> files == old(files) && names == old(names)
    {
      var name := FileName(key);
      WithoutMembers(names, name);
      if name in files {
        Unlink(name);
      }
    }

    /** `cleanup`: deletes exactly the expired and unreadable JSON files and returns how many. */
    method Cleanup(now: int) returns (cleanedCount: nat)
      requires Valid()
      modifies this
      ensures Valid()
      ensures var gone := Swept(old(names), old(files), now);
        && names == Drop(old(names), gone)
        && (forall n :: n in files <==> n in old(files) && n !in gone)
        && (forall n :: n in files ==> files[n] == old(files)[n])
        && cleanedCount == |gone|
    {
      var names2, files2;
      names2, files2, cleanedCount := SweepDir(names, files, now);
      Restore(names2, files2, Swept(names, files, now));
    }

    /** `clear`: deletes every JSON file, keeps the others and returns how many were deleted. */
    method Clear() returns (deletedCount: nat)
      requires Valid()
      modifies this
      ensures Valid()
      ensures var gone := JsonNames(old(names));
        && names == Drop(old(names), gone)
        && (forall n :: n in files <==> n in old(files) && !IsJson(n))
        && (forall n :: n in files ==> files[n] == old(files)[n])
        && deletedCount == |gone|
    {
      var names2, files2;
      names2, files2, deletedCount := ClearDir(names, files);
      JsonNamesMembers(names);
      Restore(names2, files2, JsonNames(names));
    }

    /** `getStats`: the number of JSON files and their oldest and newest mtimes. */
    method GetStats() returns (stats: FileStats)
      requires Valid()
      ensures var json := JsonNames(names);
        && stats.totalFiles == |json|
        && (|json| == 0 ==> stats.oldestFile.None? && stats.newestFile.None?)
        && (|json| > 0 ==>
              && stats.oldestFile == Some(MinOf(Mtimes(json, files)))
              && stats.newestFile == Some(MaxOf(Mtimes(json, files))))
    {
      stats := Summarize(names, files);
    }
  }
}
