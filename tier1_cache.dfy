/**
 * The file-based result cache of `tier1_tools.py` (`CacheManager`).
 *
 * The cache directory becomes `files`, a map from cache key to the JSON file
 * stored under it, with the file's modification time. The clock is a
 * parameter `now` in microseconds. The composite file hash (content digest,
 * size and modification time) comes from `stats`, a map from path to that
 * hash for every file that can be read; for any other path the key falls
 * back to a hash of the path itself.
 */
module Tier1Cache {
  import opened Wrappers
  import opened Json
  import opened Ordering

  const CacheTtlSeconds: nat := 3600
  const MicrosPerSecond: nat := 1000000
  const CacheTtlMicros: nat := CacheTtlSeconds * MicrosPerSecond
  const MaxCacheSize: nat := 100

  /** `_get_file_hash`: the composite hash, or a hash of the path when the file cannot be read. */
  datatype FileId = Composite(hash: string) | PathHash(path: string)

  function FileIdOf(stats: map<string, string>, path: string): (r: FileId)
    ensures path in stats ==> r == Composite(stats[path])
    ensures path !in stats ==> r == PathHash(path)
  {
    if path in stats then Composite(stats[path]) else PathHash(path)
  }

  /**
   * `f"{tool}_{file_hash}_{params_hash}"` as its three parts. The hashes are
   * taken to be injective, so the key keeps the canonical (key-sorted)
   * parameter list that `json.dumps(params, sort_keys=True)` writes.
   */
  datatype Tier1Key = Tier1Key(tool: string, file: FileId, params: Entries)

  /** `_get_cache_key`. */
  function KeyOf(stats: map<string, string>, tool: string, path: string, params: Entries): (k: Tier1Key)
    requires DistinctKeys(params)
    ensures k.tool == tool && k.file == FileIdOf(stats, path)
    ensures SortedKeys(k.params) && multiset(k.params) == multiset(params)
  {
    Tier1Key(tool, FileIdOf(stats, path), SortKeys(params))
  }

  /** Parameter dicts with the same entries give the same key, whatever their insertion order. */
  lemma KeyIgnoresParamOrder(stats: map<string, string>, tool: string, path: string, ps: Entries, qs: Entries)
    requires DistinctKeys(ps) && DistinctKeys(qs) && multiset(ps) == multiset(qs)
    ensures KeyOf(stats, tool, path, ps) == KeyOf(stats, tool, path, qs)
  {
    CanonicalIgnoresOrder(ps, qs);
  }

  /** The dict `store_result` writes around a result. */
  datatype Wrapper = Wrapper(timestamp: int, tool: string, filepath: string, params: Entries, result: Value)

  /** A `.json` file of the cache directory and its modification time. */
  datatype CacheFile = CacheFile(mtime: int, data: Wrapper)

  /**
   * What `_cleanup_cache` leaves of a directory: all of it when it holds at
   * most `MAX_CACHE_SIZE` files, otherwise exactly `MAX_CACHE_SIZE` of its
   * files, none older than any file removed.
   */
  predicate KeepsNewest(before: map<Tier1Key, CacheFile>, after: map<Tier1Key, CacheFile>)
  {
    (|before| <= MaxCacheSize ==> after == before) &&
    (|before| > MaxCacheSize ==>
      |after| == MaxCacheSize &&
      (forall k :: k in after ==> k in before && after[k] == before[k]) &&
      (forall k, j :: k in after && j in before && j !in after ==> before[j].mtime <= after[k].mtime))
  }

  /** A file strictly newer than every other file survives the cleanup. */
  lemma NewestSurvives(before: map<Tier1Key, CacheFile>, after: map<Tier1Key, CacheFile>, k: Tier1Key)
    requires KeepsNewest(before, after) && k in before
    requires forall j :: j in before && j != k ==> before[j].mtime < before[k].mtime
    ensures k in after && after[k] == before[k]
  {
    if |before| > MaxCacheSize {
      assert after.Keys != {} by {
        assert |after.Keys| == MaxCacheSize;
      }
      var j :| j in after;
      assert j in before && after[j] == before[j];
    }
  }

  /**
   * Deleting the first files of an ascending modification order keeps
   * exactly `MAX_CACHE_SIZE` files, none older than a deleted one.
   */
  lemma OldestRemoved(before: map<Tier1Key, CacheFile>, after: map<Tier1Key, CacheFile>,
                      order: seq<Tier1Key>, m: nat)
    requires |before| > MaxCacheSize && |order| == |before| && m == |order| - MaxCacheSize
    requires forall k :: k in order <==> k in before
    requires forall i, j :: 0 <= i < j < |order| ==> before[order[i]].mtime <= before[order[j]].mtime
    requires forall k :: k in after <==> k in before && k !in order[..m]
    requires forall k :: k in after ==> after[k] == before[k]
    requires |after| == |before| - m
    ensures KeepsNewest(before, after)
  {
    forall k, j | k in after && j in before && j !in after
      ensures before[j].mtime <= after[k].mtime
    {
      var a :| 0 <= a < m && order[a] == j;
      var b :| 0 <= b < |order| && order[b] == k;
      assert k !in order[..m];
      assert b >= m;
    }
  }

  /** `CacheManager`: the cache directory `~/.cache/mcp-ghidra5`. */
  class CacheManager {
    var files: map<Tier1Key, CacheFile>

    /** `__init__`: opens an existing directory as it is. */
    constructor (files0: map<Tier1Key, CacheFile>)
      ensures files == files0
    {
      files := files0;
    }

    /**
     * `get_cached_result`: a miss when no file exists; an expired file
     * (older than `CACHE_TTL`) is deleted and reported as a miss; a fresh
     * file is returned as stored.
     */
    method Get(stats: map<string, string>, tool: string, path: string, params: Entries, now: int)
      returns (r: Option<Wrapper>)
      requires DistinctKeys(params)
      modifies this
      ensures var k := KeyOf(stats, tool, path, params);
        && (k !in old(files) ==> r == None && files == old(files))
        && (k in old(files) && now - old(files)[k].mtime > CacheTtlMicros ==>
              r == None && files == old(files) - {k})
        && (k in old(files) && now - old(files)[k].mtime <= CacheTtlMicros ==>
              r == Some(old(files)[k].data) && files == old(files))
    {
      var k := KeyOf(stats, tool, path, params);
      if k !in files {
        return None;
      }
      var age := now - files[k].mtime;
      if age > CacheTtlMicros {
        files := files - {k};
        return None;
      }
      r := Some(files[k].data);
    }

    /**
     * `store_result`: writes the wrapper under the key (replacing any file
     * there), stamped now, then runs `_cleanup_cache`.
     */
    method Store(stats: map<string, string>, tool: string, path: string, params: Entries, result: Value, now: int)
      requires DistinctKeys(params)
      modifies this
      ensures KeepsNewest(old(files)[KeyOf(stats, tool, path, params) := CacheFile(now, Wrapper(now, tool, path, params, result))], files)
    {
      var k := KeyOf(stats, tool, path, params);
      files := files[k := CacheFile(now, Wrapper(now, tool, path, params, result))];
      CleanupCache();
    }

    /**
     * `_cleanup_cache`: nothing when at most `MAX_CACHE_SIZE` files exist,
     * otherwise the files in ascending modification order minus the last
     * `MAX_CACHE_SIZE` are deleted.
     */
    method CleanupCache()
      modifies this
      ensures KeepsNewest(old(files), files)
    {
      if |files| <= MaxCacheSize {
        return;
      }
      var order := MtimeOrder();
      var m := |order| - MaxCacheSize;
      ghost var before := files;
      RemoveFirst(order, m);
      OldestRemoved(before, files, order, m);
    }

    /** Deletes the files `order[..m]`, all present and distinct. */
    method RemoveFirst(order: seq<Tier1Key>, m: nat)
      requires m <= |order|
      requires forall i, j :: 0 <= i < j < |order| ==> order[i] != order[j]
      requires forall i :: 0 <= i < |order| ==> order[i] in files
      modifies this
      ensures forall k :: k in files <==> k in old(files) && k !in order[..m]
      ensures forall k :: k in files ==> files[k] == old(files)[k]
      ensures |files| == |old(files)| - m
    {
      var i := 0;
      while i < m
        invariant 0 <= i <= m
        invariant forall k :: k in files <==> k in old(files) && k !in order[..i]
        invariant forall k :: k in files ==> files[k] == old(files)[k]
        invariant |files| == |old(files)| - i
      {
        assert order[i] in files by {
          assert forall a :: 0 <= a < i ==> order[a] != order[i];
        }
        assert (files - {order[i]}).Keys == files.Keys - {order[i]};
        files := files - {order[i]};
        assert order[..i + 1] == order[..i] + [order[i]];
        i := i + 1;
      }
    }

    /** The files in ascending modification time; ties in any order. */
    method MtimeOrder() returns (order: seq<Tier1Key>)
      ensures |order| == |files|
      ensures forall i, j :: 0 <= i < j < |order| ==> order[i] != order[j]
      ensures forall k :: k in order <==> k in files
      ensures forall i, j :: 0 <= i < j < |order| ==> files[order[i]].mtime <= files[order[j]].mtime
    {
      var mtime := map k | k in files :: files[k].mtime;
      assert mtime.Keys == files.Keys;
      order := AscendingOrder(mtime);
    }
  }

  /**
   * A store followed by a get of the same tool, file and parameters at the
   * same moment returns the stored result, provided the new file is not
   * evicted at once: the directory had room, or every existing file is older
   * than now.
   */
  method StoreThenGet(c: CacheManager, stats: map<string, string>, tool: string, path: string,
                      params: Entries, result: Value, now: int)
    returns (r: Option<Wrapper>)
    requires DistinctKeys(params)
    requires |c.files| < MaxCacheSize || forall k :: k in c.files ==> c.files[k].mtime < now
    modifies c
    ensures r.Some? && r.value.result == result && r.value.tool == tool && r.value.filepath == path
  {
    ghost var k := KeyOf(stats, tool, path, params);
    ghost var written := c.files[k := CacheFile(now, Wrapper(now, tool, path, params, result))];
    c.Store(stats, tool, path, params, result, now);
    if |written| <= MaxCacheSize {
      assert c.files == written;
    } else {
      NewestSurvives(written, c.files, k);
    }
    r := c.Get(stats, tool, path, params, now);
  }
}
