/**
 The prepare-hash cache of the checkpoint manager: digests taken while a checkpoint is prepared
 stand in for rehashing at commit, as long as size and modification time are unchanged.
 */
module HashCache {
  import opened Wrappers

  type Bytes = seq<int>

  datatype File = File(content: Bytes, mtime: int)

  /** The files by resolved path. */
  type Disk = map<string, File>

  datatype Entry = Entry(path: string, bytes: nat, digest: Bytes)

  datatype Cached = Cached(bytes: nat, mtime: int, digest: Bytes)

  type Cache = map<string, Cached>

  datatype CheckError = MissingFile(path: string) | ByteCountChanged(path: string) | IdentityChanged(path: string)
    | HashChanged(path: string)

  // ----- what prepare records

  function EntryOf(sha: Bytes -> Bytes, disk: Disk, path: string): Entry
    requires path in disk
  {
    Entry(path, |disk[path].content|, sha(disk[path].content))
  }

  function CachedOf(sha: Bytes -> Bytes, disk: Disk, path: string): Cached
    requires path in disk
  {
    Cached(|disk[path].content|, disk[path].mtime, sha(disk[path].content))
  }

  /** The cache holds exactly what was on disk at `paths`. */
  ghost predicate Remembers(sha: Bytes -> Bytes, disk: Disk, cache: Cache, paths: seq<string>) {
    && (forall p :: p in cache <==> p in paths)
    && (forall p :: p in cache ==> p in disk && cache[p] == CachedOf(sha, disk, p))
  }

  method Prepare(sha: Bytes -> Bytes, disk: Disk, paths: seq<string>, reuse: bool)
    returns (r: Result<(seq<Entry>, Option<Cache>), CheckError>)
    ensures r.Ok? <==> forall i :: 0 <= i < |paths| ==> paths[i] in disk
    ensures r.Ok? ==>
      && |r.value.0| == |paths|
      && (forall i :: 0 <= i < |paths| ==> paths[i] in disk && r.value.0[i] == EntryOf(sha, disk, paths[i]))
      && (r.value.1.Some? <==> reuse)
      && (reuse ==> Remembers(sha, disk, r.value.1.value, paths))
  {
    var entries: seq<Entry> := [];
    var cache: Cache := map[];
    for i: nat := 0 to |paths|
      invariant |entries| == i
      invariant forall k :: 0 <= k < i ==> paths[k] in disk && entries[k] == EntryOf(sha, disk, paths[k])
      invariant reuse ==> Remembers(sha, disk, cache, paths[..i])
    {
      if paths[i] !in disk {
        return Err(MissingFile(paths[i]));
      }
      var file := disk[paths[i]];
      var digest := sha(file.content);
      assert paths[..i + 1] == paths[..i] + [paths[i]];
      if reuse {
        cache := cache[paths[i] := Cached(|file.content|, file.mtime, digest)];
      }
      entries := entries + [Entry(paths[i], |file.content|, digest)];
    }
    assert paths[..|paths|] == paths;
    return Ok((entries, if reuse then Some(cache) else None));
  }

  // ----- what commit checks

  /** Full rehashing of one entry. */
  predicate Rehashes(sha: Bytes -> Bytes, disk: Disk, e: Entry) {
    e.path in disk && e.bytes == |disk[e.path].content| && e.digest == sha(disk[e.path].content)
  }

  /** The check of one entry through the cache; entries that were not cached are rehashed. */
  predicate Checks(sha: Bytes -> Bytes, disk: Disk, cache: Cache, e: Entry) {
    && e.path in disk && e.bytes == |disk[e.path].content|
    && if e.path in cache then
         && cache[e.path].bytes == |disk[e.path].content| && cache[e.path].mtime == disk[e.path].mtime
         && cache[e.path].digest == e.digest
       else e.digest == sha(disk[e.path].content)
  }

  method ValidateFiles(sha: Bytes -> Bytes, disk: Disk, cache: Option<Cache>, entries: seq<Entry>)
      returns (r: Result<(), CheckError>)
    ensures r.Ok? <==> forall i :: 0 <= i < |entries| ==>
      if cache.Some? then Checks(sha, disk, cache.value, entries[i]) else Rehashes(sha, disk, entries[i])
  {
    for i: nat := 0 to |entries|
      invariant forall k :: 0 <= k < i ==>
        if cache.Some? then Checks(sha, disk, cache.value, entries[k]) else Rehashes(sha, disk, entries[k])
    {
      var e := entries[i];
      if e.path !in disk {
        return Err(MissingFile(e.path));
      }
      var file := disk[e.path];
      if e.bytes != |file.content| {
        return Err(ByteCountChanged(e.path));
      }
      if cache.Some? && e.path in cache.value {
        var known := cache.value[e.path];
        if known.bytes != |file.content| || known.mtime != file.mtime || known.digest != e.digest {
          return Err(IdentityChanged(e.path));
        }
      } else if e.digest != sha(file.content) {
        return Err(HashChanged(e.path));
      }
    }
    return Ok(());
  }

  // ----- soundness of the cache

  /** A file keeps its size and modification time. */
  predicate Untouched(before: Disk, after: Disk, path: string) {
    path in before && path in after && |before[path].content| == |after[path].content|
      && before[path].mtime == after[path].mtime
  }

  /** The assumption on the file system: content changes only together with size or modification time. */
  ghost predicate ChangesShow(before: Disk, after: Disk) {
    forall p :: p in before && p in after && Untouched(before, after, p) ==> before[p].content == after[p].content
  }

  lemma CachedEntry(sha: Bytes -> Bytes, before: Disk, after: Disk, cache: Cache, paths: seq<string>, e: Entry)
    requires Remembers(sha, before, cache, paths) && ChangesShow(before, after)
    ensures Checks(sha, after, cache, e) <==>
      Rehashes(sha, after, e) && (e.path in cache ==> Untouched(before, after, e.path))
  {
    if e.path in cache {
      assert cache[e.path] == CachedOf(sha, before, e.path);
    }
  }

  ghost predicate AllCheck(sha: Bytes -> Bytes, disk: Disk, cache: Cache, entries: seq<Entry>) {
    forall i :: 0 <= i < |entries| ==> Checks(sha, disk, cache, entries[i])
  }

  ghost predicate AllRehash(sha: Bytes -> Bytes, disk: Disk, entries: seq<Entry>) {
    forall i :: 0 <= i < |entries| ==> Rehashes(sha, disk, entries[i])
  }

  /** Cached validation accepts exactly the manifests that rehashing accepts and whose cached files were not touched
      since prepare. */
  lemma CacheIsSound(sha: Bytes -> Bytes, before: Disk, after: Disk, cache: Cache, paths: seq<string>,
      entries: seq<Entry>)
    requires Remembers(sha, before, cache, paths) && ChangesShow(before, after)
    ensures AllCheck(sha, after, cache, entries)
      <==> AllRehash(sha, after, entries)
           && forall i :: 0 <= i < |entries| && entries[i].path in cache ==> Untouched(before, after, entries[i].path)
  {
    hide Checks, Rehashes, Untouched, Remembers, ChangesShow;
    forall i | 0 <= i < |entries|
      ensures Checks(sha, after, cache, entries[i]) <==>
        Rehashes(sha, after, entries[i]) && (entries[i].path in cache ==> Untouched(before, after, entries[i].path))
    {
      CachedEntry(sha, before, after, cache, paths, entries[i]);
    }
  }

  /** Right after prepare, the manifest it produced passes both checks. */
  lemma PreparedPasses(sha: Bytes -> Bytes, disk: Disk, cache: Cache, paths: seq<string>, entries: seq<Entry>)
    requires Remembers(sha, disk, cache, paths) && |entries| == |paths|
    requires forall i :: 0 <= i < |paths| ==> paths[i] in disk && entries[i] == EntryOf(sha, disk, paths[i])
    ensures AllCheck(sha, disk, cache, entries) && AllRehash(sha, disk, entries)
  {
  }

  /** Where the assumption fails the cache is fooled exactly by an equal-sized change under the same modification time
      that the digest would show. */
  lemma CacheFooled(sha: Bytes -> Bytes, before: Disk, after: Disk, cache: Cache, paths: seq<string>, e: Entry)
    requires Remembers(sha, before, cache, paths)
    ensures Checks(sha, after, cache, e) && !Rehashes(sha, after, e)
      <==> && e.path in cache && Untouched(before, after, e.path) && e == EntryOf(sha, before, e.path)
           && sha(after[e.path].content) != sha(before[e.path].content)
  {
    if e.path in cache {
      assert cache[e.path] == CachedOf(sha, before, e.path);
    }
  }

  /** Any two contents of one size that the digest tells apart fool the cache, when the second keeps the time of the
      first. */
  lemma CacheCanBeFooled(sha: Bytes -> Bytes, first: Bytes, second: Bytes, mtime: int)
    requires |first| == |second| && sha(first) != sha(second)
    ensures var before, after := map["file" := File(first, mtime)], map["file" := File(second, mtime)];
      var e, cache := EntryOf(sha, before, "file"), map["file" := CachedOf(sha, before, "file")];
      && Remembers(sha, before, cache, ["file"])
      && AllCheck(sha, after, cache, [e]) && !AllRehash(sha, after, [e])
  {
    var before, after := map["file" := File(first, mtime)], map["file" := File(second, mtime)];
    var e, cache := EntryOf(sha, before, "file"), map["file" := CachedOf(sha, before, "file")];
    CacheFooled(sha, before, after, cache, ["file"], e);
    assert [e][0] == e;
  }
}
