/**
 * The persistent result cache of `cache_utils.py` (`AnalysisCache`).
 *
 * The SQLite table becomes `index`, a map from cache key to row, and the
 * payload directory becomes `files`, a map from payload file name to the
 * pickled result and its size on disk. The clock is a parameter `now` in
 * microseconds (the resolution of `datetime.now()`); payload file names keep
 * only the second. File digests come from `digests`, a map from path to the
 * hex SHA-256 of the file's content, with "" for a file that cannot be read.
 */
module AnalysisCache {
  import opened Wrappers
  import opened Json
  import opened Ordering

  /** `MAX_CACHE_SIZE_MB` and `CACHE_EXPIRY_HOURS` when the environment does not set them. */
  const DefaultMaxCacheSizeMb: int := 500
  const DefaultCacheExpiryHours: int := 24
  const MicrosPerSecond: nat := 1000000

  /** `_calculate_file_hash`: the digest, or "" when the file cannot be read. */
  function FileHash(digests: map<string, string>, path: string): string
  {
    if path in digests then digests[path] else ""
  }

  /** `s[:16]`. */
  function Prefix16(s: string): (r: string)
    ensures |r| <= 16 && |r| <= |s| && r == s[..|r|]
    ensures |s| >= 16 ==> |r| == 16
  {
    if |s| <= 16 then s else s[..16]
  }

  /**
   * `f"{analysis_type}_{file_hash[:16]}_{params_hash}"` as its three parts.
   * The parameters hash is taken to be injective, so the key keeps the
   * canonical (key-sorted) parameter list it is computed from.
   */
  datatype CacheKey = CacheKey(analysisType: string, hashPrefix: string, params: Entries)

  /** `_calculate_cache_key`. */
  function CacheKeyOf(fileHash: string, analysisType: string, params: Entries): (k: CacheKey)
    requires DistinctKeys(params)
    ensures k.analysisType == analysisType && k.hashPrefix == Prefix16(fileHash)
    ensures SortedKeys(k.params) && multiset(k.params) == multiset(params)
  {
    CacheKey(analysisType, Prefix16(fileHash), SortKeys(params))
  }

  /** The key does not depend on the order in which the parameters were inserted. */
  lemma KeyIgnoresParamOrder(fileHash: string, analysisType: string, ps: Entries, qs: Entries)
    requires DistinctKeys(ps) && DistinctKeys(qs) && multiset(ps) == multiset(qs)
    ensures CacheKeyOf(fileHash, analysisType, ps) == CacheKeyOf(fileHash, analysisType, qs)
  {
    CanonicalIgnoresOrder(ps, qs);
  }

  /** `f"{cache_key}_{timestamp}.pkl"` with the timestamp at one-second resolution. */
  datatype PayloadName = PayloadName(key: CacheKey, second: int)

  function PayloadNameAt(key: CacheKey, now: nat): PayloadName
  {
    PayloadName(key, now / MicrosPerSecond)
  }

  /** The key `cache_result` and `get_cached_result` compute for an artifact. */
  function KeyFor(digests: map<string, string>, path: string, analysisType: string, params: Entries): CacheKey
    requires DistinctKeys(params)
  {
    CacheKeyOf(FileHash(digests, path), analysisType, params)
  }

  /** The row `cache_result` inserts: created and last accessed now. */
  function RowFor(digests: map<string, string>, path: string, analysisType: string, params: Entries,
                  size: nat, now: nat): (e: Entry)
    requires DistinctKeys(params)
    ensures e.resultFile.key == KeyFor(digests, path, analysisType, params)
    ensures e.fileHash == FileHash(digests, path) && e.createdAt == e.lastAccessed == now
  {
    Entry(FileHash(digests, path), analysisType, SortKeys(params), now, now, size,
          PayloadNameAt(KeyFor(digests, path, analysisType, params), now))
  }

  /**
   * What `get_cached_result` returns for an artifact, given the table and
   * the directory: the stored payload when the row exists, its hash is the
   * file's current hash and its payload file is present.
   */
  function Lookup(enabled: bool, index: map<CacheKey, Entry>, files: map<PayloadName, Payload>,
                  digests: map<string, string>, path: string, analysisType: string, params: Entries): Option<Value>
    requires DistinctKeys(params)
  {
    var key := KeyFor(digests, path, analysisType, params);
    if !enabled || key !in index then None
    else if index[key].fileHash != FileHash(digests, path) || index[key].resultFile !in files then None
    else Some(files[index[key].resultFile].result)
  }

  /** A pickled result and its size on disk. */
  datatype Payload = Payload(result: Value, size: nat)

  /** One row of `cache_entries`. */
  datatype Entry = Entry(
    fileHash: string,
    analysisType: string,
    paramsHash: Entries,
    createdAt: int,
    lastAccessed: int,
    size: nat,
    resultFile: PayloadName)

  /** The directory once `cache_result` has written the payload. */
  function Written(files: map<PayloadName, Payload>, digests: map<string, string>, path: string, analysisType: string,
                   params: Entries, result: Value, size: nat, now: nat): map<PayloadName, Payload>
    requires DistinctKeys(params)
  {
    files[RowFor(digests, path, analysisType, params, size, now).resultFile := Payload(result, size)]
  }

  /** The total size of the `.pkl` files in the directory. */
  ghost function TotalSize(files: map<PayloadName, Payload>): nat
    decreases |files.Keys|
  {
    if files == map[] then 0
    else
      var f :| f in files;
      assert |(files - {f}).Keys| < |files.Keys| by {
        assert (files - {f}).Keys == files.Keys - {f};
      }
      files[f].size + TotalSize(files - {f})
  }

  /** The total does not depend on which file is counted first. */
  lemma {:induction false} TotalSizeRemove(files: map<PayloadName, Payload>, f: PayloadName)
    requires f in files
    ensures TotalSize(files) == files[f].size + TotalSize(files - {f})
    decreases |files.Keys|
  {
    var g :| g in files && TotalSize(files) == files[g].size + TotalSize(files - {g});
    if g != f {
      assert (files - {g}).Keys == files.Keys - {g};
      assert (files - {f}).Keys == files.Keys - {f};
      TotalSizeRemove(files - {g}, f);
      TotalSizeRemove(files - {f}, g);
      assert files - {g} - {f} == files - {f} - {g};
    }
  }

  function Sum(xs: seq<nat>): nat
  {
    if xs == [] then 0 else Sum(xs[..|xs| - 1]) + xs[|xs| - 1]
  }

  /** The sizes of the given rows, in order. */
  function SizesOf(keys: seq<CacheKey>, index: map<CacheKey, Entry>): (r: seq<nat>)
    ensures |r| == |keys| && forall i :: 0 <= i < |keys| ==> r[i] == SizeIn(keys[i], index)
  {
    if keys == [] then [] else SizesOf(keys[..|keys| - 1], index) + [SizeIn(keys[|keys| - 1], index)]
  }

  /** The total size of the first `m` rows of an order. */
  function PrefixSize(order: seq<CacheKey>, m: nat, index: map<CacheKey, Entry>): nat
    requires m <= |order|
  {
    Sum(SizesOf(order[..m], index))
  }

  /** A row's recorded size (0 for a key without a row). */
  function SizeIn(k: CacheKey, index: map<CacheKey, Entry>): nat
  {
    if k in index then index[k].size else 0
  }

  /**
   * The rows `_cleanup_lru_entries` takes: distinct rows of the index, in
   * ascending `last_accessed` order, none accessed later than a row it leaves.
   */
  ghost predicate LruPrefix(evicted: seq<CacheKey>, index: map<CacheKey, Entry>)
  {
    (forall i, j :: 0 <= i < j < |evicted| ==> evicted[i] != evicted[j]) &&
    (forall i :: 0 <= i < |evicted| ==> evicted[i] in index) &&
    (forall i, j :: 0 <= i < j < |evicted| ==> index[evicted[i]].lastAccessed <= index[evicted[j]].lastAccessed) &&
    (forall i, k :: 0 <= i < |evicted| && k in index && k !in evicted ==>
       index[evicted[i]].lastAccessed <= index[k].lastAccessed)
  }

  /**
   * How many rows are taken: the shortest non-empty prefix whose sizes reach
   * `needed`, or every row when none does.
   */
  ghost predicate ShortestReaching(evicted: seq<CacheKey>, index: map<CacheKey, Entry>, needed: int)
  {
    (index != map[] ==> evicted != []) &&
    (forall m :: 1 <= m < |evicted| ==> PrefixSize(evicted, m, index) < needed) &&
    (PrefixSize(evicted, |evicted|, index) >= needed || forall k :: k in index ==> k in evicted)
  }

  /** The payload files of the given rows. */
  function FilesOf(keys: seq<CacheKey>, index: map<CacheKey, Entry>): set<PayloadName>
  {
    set i | 0 <= i < |keys| && keys[i] in index :: index[keys[i]].resultFile
  }

  /**
   * `AnalysisCache`. When the cache is disabled every operation returns at
   * once and changes nothing.
   */
  class Cache {
    const enabled: bool
    /** `MAX_CACHE_SIZE_MB` in bytes. */
    const maxCacheBytes: int
    /** `CACHE_EXPIRY_HOURS` in microseconds. */
    const expiryMicros: int
    var index: map<CacheKey, Entry>
    var files: map<PayloadName, Payload>

    /** Every row names a payload file written under its own key. */
    ghost predicate Valid()
      reads this
    {
      forall k :: k in index ==> index[k].resultFile.key == k
    }

    /**
     * `__init__`: opens the persisted table and directory, then sweeps the
     * expired rows. `maxCacheSizeMb` and `cacheExpiryHours` are the integers
     * the module reads from the environment (`DefaultMaxCacheSizeMb` and
     * `DefaultCacheExpiryHours` when unset).
     */
    constructor (enabled: bool, maxCacheSizeMb: int, cacheExpiryHours: int,
                 index0: map<CacheKey, Entry>, files0: map<PayloadName, Payload>, now: int)
      requires forall k :: k in index0 ==> index0[k].resultFile.key == k
      ensures Valid() && this.enabled == enabled
      ensures maxCacheBytes == maxCacheSizeMb * 1024 * 1024
      ensures expiryMicros == cacheExpiryHours * 3600 * MicrosPerSecond
      ensures enabled ==> index == map k | k in index0 && index0[k].createdAt >= now - expiryMicros :: index0[k]
      ensures enabled ==> files == files0 - (set k | k in index0 && index0[k].createdAt < now - expiryMicros :: index0[k].resultFile)
      ensures !enabled ==> index == index0 && files == files0
    {
      this.enabled := enabled;
      maxCacheBytes := maxCacheSizeMb * 1024 * 1024;
      expiryMicros := cacheExpiryHours * 3600 * MicrosPerSecond;
      index := index0;
      files := files0;
      new;
      CleanupExpired(now);
    }

    /**
     * `_cleanup_expired`: deletes exactly the rows created before
     * `now - CACHE_EXPIRY_HOURS`, and their payload files.
     */
    method CleanupExpired(now: int)
      requires Valid()
      modifies this
      ensures Valid()
      ensures enabled ==> index == map k | k in old(index) && old(index)[k].createdAt >= now - expiryMicros :: old(index)[k]
      ensures enabled ==> files == old(files) - (set k | k in old(index) && old(index)[k].createdAt < now - expiryMicros :: old(index)[k].resultFile)
      ensures !enabled ==> index == old(index) && files == old(files)
    {
      if !enabled {
        return;
      }
      var cutoff := now - expiryMicros;
      var doomed := set k | k in index && index[k].createdAt < cutoff :: index[k].resultFile;
      var todo := doomed;
      while todo != {}
        invariant todo <= doomed
        invariant index == old(index)
        invariant files == old(files) - (doomed - todo)
        decreases |todo|
      {
        var f :| f in todo;
        files := files - {f};
        todo := todo - {f};
      }
      index := map k | k in index && index[k].createdAt >= cutoff :: index[k];
    }

    /** `_remove_cache_entry`: drops the row and its payload file, if the row exists. */
    method RemoveEntry(key: CacheKey)
      requires Valid()
      modifies this
      ensures Valid()
      ensures index == old(index) - {key}
      ensures key in old(index) ==> files == old(files) - {old(index)[key].resultFile}
      ensures key !in old(index) ==> files == old(files)
    {
      if key in index {
        var f := index[key].resultFile;
        if f in files {
          files := files - {f};
        }
        index := index - {key};
      }
    }

    /** The rows in ascending `last_accessed` order; ties in any order. */
    method LruOrder() returns (order: seq<CacheKey>)
      ensures forall i, j :: 0 <= i < j < |order| ==> order[i] != order[j]
      ensures forall k :: k in order <==> k in index
      ensures forall i, j :: 0 <= i < j < |order| ==> index[order[i]].lastAccessed <= index[order[j]].lastAccessed
    {
      var lastAccessed := map k | k in index :: index[k].lastAccessed;
      order := AscendingOrder(lastAccessed);
    }

    /**
     * The selection loop of `_cleanup_lru_entries`: rows in ascending
     * `last_accessed` order until their sizes reach `needed`.
     */
    method LruVictims(needed: int) returns (evicted: seq<CacheKey>)
      ensures LruPrefix(evicted, index)
      ensures ShortestReaching(evicted, index, needed)
    {
      var order := LruOrder();
      var i := 0;
      var freed := 0;
      var done := false;
      while i < |order| && !done
        invariant 0 <= i <= |order|
        invariant freed == PrefixSize(order, i, index)
        invariant forall m :: 1 <= m < i ==> PrefixSize(order, m, index) < needed
        invariant !done && i > 0 ==> freed < needed
        invariant done ==> i > 0 && freed >= needed
        decreases |order| - i, if done then 0 else 1
      {
        SumSizesSnoc(order, i, index);
        assert PrefixSize(order, i + 1, index) == freed + index[order[i]].size;
        freed := freed + index[order[i]].size;
        i := i + 1;
        if freed >= needed {
          done := true;
        }
      }
      evicted := order[..i];
      VictimsAreShortestLruPrefix(order, i, index, needed);
    }

    /**
     * `_cleanup_lru_entries`: deletes the payload files and rows of the
     * least recently used rows whose sizes first reach `needed`.
     */
    method CleanupLru(needed: int) returns (evicted: seq<CacheKey>)
      requires Valid()
      modifies this
      ensures Valid()
      ensures LruPrefix(evicted, old(index))
      ensures ShortestReaching(evicted, old(index), needed)
      ensures index == old(index) - (set k | k in evicted)
      ensures files == old(files) - FilesOf(evicted, old(index))
    {
      evicted := LruVictims(needed);
      RemoveRows(evicted);
    }

    /** The deletion loop of `_cleanup_lru_entries`. */
    method RemoveRows(victims: seq<CacheKey>)
      requires Valid()
      requires forall i, j :: 0 <= i < j < |victims| ==> victims[i] != victims[j]
      requires forall i :: 0 <= i < |victims| ==> victims[i] in index
      modifies this
      ensures Valid()
      ensures index == old(index) - (set k | k in victims)
      ensures files == old(files) - FilesOf(victims, old(index))
    {
      var j := 0;
      while j < |victims|
        invariant 0 <= j <= |victims|
        invariant Valid()
        invariant index == old(index) - (set k | k in victims[..j])
        invariant files == old(files) - FilesOf(victims[..j], old(index))
      {
        var k := victims[j];
        assert k !in victims[..j];
        var f := index[k].resultFile;
        if f in files {
          files := files - {f};
        }
        index := index - {k};
        assert victims[..j + 1] == victims[..j] + [k];
        assert FilesOf(victims[..j + 1], old(index)) == FilesOf(victims[..j], old(index)) + {f};
        j := j + 1;
      }
      assert victims[..j] == victims;
    }

    /** The loop of `_check_cache_size_limit` that adds up the `.pkl` files. */
    method DirectorySize() returns (total: nat)
      ensures total == TotalSize(files)
    {
      var rest := files.Keys;
      total := 0;
      assert (map f | f in rest :: files[f]) == files;
      while rest != {}
        invariant rest <= files.Keys
        invariant total + TotalSize(map f | f in rest :: files[f]) == TotalSize(files)
        decreases |rest|
      {
        var f :| f in rest;
        var m := map g | g in rest :: files[g];
        TotalSizeRemove(m, f);
        assert m - {f} == map g | g in rest - {f} :: files[g];
        total := total + files[f].size;
        rest := rest - {f};
      }
    }

    /**
     * `_check_cache_size_limit`: when the directory plus the new entry would
     * exceed the limit, evicts least recently used rows to free the new
     * entry's size. It answers true either way.
     */
    method CheckSizeLimit(newSize: nat) returns (ok: bool, evicted: seq<CacheKey>)
      requires Valid()
      modifies this
      ensures ok
      ensures Valid()
      ensures TotalSize(old(files)) + newSize <= maxCacheBytes ==>
                evicted == [] && index == old(index) && files == old(files)
      ensures TotalSize(old(files)) + newSize > maxCacheBytes ==>
                LruPrefix(evicted, old(index)) && ShortestReaching(evicted, old(index), newSize) &&
                index == old(index) - (set k | k in evicted) &&
                files == old(files) - FilesOf(evicted, old(index))
    {
      var total := DirectorySize();
      evicted := [];
      if total + newSize > maxCacheBytes {
        evicted := CleanupLru(newSize);
      }
      ok := true;
    }

    /**
     * `get_cached_result`. A miss when there is no row; a row whose stored
     * hash differs from the file's, or whose payload file is gone, is removed
     * and is a miss; a hit returns the payload and refreshes only that row's
     * `last_accessed`.
     */
    method Get(digests: map<string, string>, path: string, analysisType: string, params: Entries, now: int)
      returns (r: Option<Value>)
      requires Valid() && DistinctKeys(params)
      modifies this
      ensures Valid()
      ensures var key := CacheKeyOf(FileHash(digests, path), analysisType, params);
              if !enabled || key !in old(index) then
                r.None? && index == old(index) && files == old(files)
              else if old(index)[key].fileHash != FileHash(digests, path) || old(index)[key].resultFile !in old(files) then
                r.None? && index == old(index) - {key} && files == old(files) - {old(index)[key].resultFile}
              else
                r == Some(old(files)[old(index)[key].resultFile].result) &&
                index == old(index)[key := old(index)[key].(lastAccessed := now)] && files == old(files)
    {
      if !enabled {
        return None;
      }
      var fileHash := FileHash(digests, path);
      var key := CacheKeyOf(fileHash, analysisType, params);
      if key !in index {
        return None;
      }
      var row := index[key];
      if fileHash != row.fileHash {
        RemoveEntry(key);
        return None;
      }
      if row.resultFile !in files {
        RemoveEntry(key);
        return None;
      }
      r := Some(files[row.resultFile].result);
      index := index[key := row.(lastAccessed := now)];
    }

    /**
     * `cache_result` as written: the payload is written first, then the size
     * check may evict rows (deleting their payload files), then the row is
     * inserted or replaced. A replaced row's older payload file stays on disk.
     */
    method Put(digests: map<string, string>, path: string, analysisType: string, params: Entries,
               result: Value, size: nat, now: nat)
      returns (ok: bool, evicted: seq<CacheKey>)
      requires Valid() && DistinctKeys(params)
      modifies this
      ensures Valid()
      ensures ok == enabled
      ensures !enabled ==> index == old(index) && files == old(files)
      ensures enabled ==> index == (old(index) - (set k | k in evicted))[KeyFor(digests, path, analysisType, params) :=
                                      RowFor(digests, path, analysisType, params, size, now)]
      ensures enabled && TotalSize(Written(old(files), digests, path, analysisType, params, result, size, now)) + size <= maxCacheBytes ==>
                evicted == [] && files == Written(old(files), digests, path, analysisType, params, result, size, now)
      ensures enabled && TotalSize(Written(old(files), digests, path, analysisType, params, result, size, now)) + size > maxCacheBytes ==>
                LruPrefix(evicted, old(index)) && ShortestReaching(evicted, old(index), size) &&
                files == Written(old(files), digests, path, analysisType, params, result, size, now) - FilesOf(evicted, old(index))
    {
      if !enabled {
        return false, [];
      }
      var key := KeyFor(digests, path, analysisType, params);
      var row := RowFor(digests, path, analysisType, params, size, now);
      files := files[row.resultFile := Payload(result, size)];
      ghost var written := files;
      ghost var index0 := index;
      var fits;
      fits, evicted := CheckSizeLimit(size);
      if TotalSize(written) + size <= maxCacheBytes {
        assert (set k | k in evicted) == {};
        assert index == index0 - (set k | k in evicted);
        assert files == written;
      } else {
        assert files == written - FilesOf(evicted, index0);
      }
      index := index[key := row];
      ok := true;
    }

    /**
     * `cache_result` with the size check made before the payload is written,
     * so that eviction cannot delete the payload of the entry being stored.
     */
    method PutChecked(digests: map<string, string>, path: string, analysisType: string, params: Entries,
                      result: Value, size: nat, now: nat)
      returns (ok: bool, evicted: seq<CacheKey>)
      requires Valid() && DistinctKeys(params)
      modifies this
      ensures Valid()
      ensures ok == enabled
      ensures !enabled ==> index == old(index) && files == old(files)
      ensures enabled ==> index == (old(index) - (set k | k in evicted))[KeyFor(digests, path, analysisType, params) :=
                                      RowFor(digests, path, analysisType, params, size, now)]
      ensures enabled && TotalSize(old(files)) + size <= maxCacheBytes ==>
                evicted == [] && files == Written(old(files), digests, path, analysisType, params, result, size, now)
      ensures enabled && TotalSize(old(files)) + size > maxCacheBytes ==>
                LruPrefix(evicted, old(index)) && ShortestReaching(evicted, old(index), size) &&
                files == Written(old(files) - FilesOf(evicted, old(index)), digests, path, analysisType, params, result, size, now)
    {
      if !enabled {
        return false, [];
      }
      var key := KeyFor(digests, path, analysisType, params);
      var row := RowFor(digests, path, analysisType, params, size, now);
      var fits;
      fits, evicted := CheckSizeLimit(size);
      ghost var kept := files;
      if TotalSize(old(files)) + size <= maxCacheBytes {
        assert (set k | k in evicted) == {};
        assert index == old(index) - (set k | k in evicted);
        assert kept == old(files);
      } else {
        assert kept == old(files) - FilesOf(evicted, old(index));
      }
      files := files[row.resultFile := Payload(result, size)];
      assert files == Written(kept, digests, path, analysisType, params, result, size, now);
      index := index[key := row];
      ok := true;
    }

    /** `clear_cache`: every payload file and every row is deleted. */
    method ClearCache() returns (ok: bool)
      requires Valid()
      modifies this
      ensures Valid()
      ensures ok == enabled
      ensures enabled ==> index == map[] && files == map[]
      ensures !enabled ==> index == old(index) && files == old(files)
    {
      if !enabled {
        return false;
      }
      files := map[];
      index := map[];
      ok := true;
    }
  }

  lemma SumSizesSnoc(order: seq<CacheKey>, i: nat, index: map<CacheKey, Entry>)
    requires i < |order| && forall k :: k in order ==> k in index
    ensures Sum(SizesOf(order[..i + 1], index)) == Sum(SizesOf(order[..i], index)) + index[order[i]].size
  {
    assert order[..i + 1][..i] == order[..i];
  }

  /**
   * The selection loop's exit state: the first `i` rows of an ascending
   * order, where `i` is the shortest non-empty prefix reaching `needed` or
   * the whole order.
   */
  lemma VictimsAreShortestLruPrefix(order: seq<CacheKey>, i: nat, index: map<CacheKey, Entry>, needed: int)
    requires i <= |order|
    requires forall a, b :: 0 <= a < b < |order| ==> order[a] != order[b]
    requires forall k :: k in order <==> k in index
    requires forall a, b :: 0 <= a < b < |order| ==> index[order[a]].lastAccessed <= index[order[b]].lastAccessed
    requires forall m :: 1 <= m < i ==> PrefixSize(order, m, index) < needed
    requires |order| > 0 ==> i > 0
    requires PrefixSize(order, i, index) >= needed || i == |order|
    ensures LruPrefix(order[..i], index) && ShortestReaching(order[..i], index, needed)
  {
    var evicted := order[..i];
    PrefixOfLruOrder(order, i, index);
    PrefixSizesOfPrefix(order, i, index);
    if i == |order| {
      assert evicted == order;
    }
    if index != map[] {
      var k :| k in index;
      assert k in order;
    }
  }

  /** The first `m` rows of `order[..i]` are the first `m` rows of `order`. */
  lemma PrefixSizesOfPrefix(order: seq<CacheKey>, i: nat, index: map<CacheKey, Entry>)
    requires i <= |order|
    ensures forall m :: 0 <= m <= i ==> PrefixSize(order[..i], m, index) == PrefixSize(order, m, index)
  {
    forall m | 0 <= m <= i
      ensures PrefixSize(order[..i], m, index) == PrefixSize(order, m, index)
    {
      assert order[..i][..m] == order[..m];
    }
  }

  /** The first `i` entries of an ascending order are a least-recently-used prefix. */
  lemma PrefixOfLruOrder(order: seq<CacheKey>, i: nat, index: map<CacheKey, Entry>)
    requires i <= |order|
    requires forall a, b :: 0 <= a < b < |order| ==> order[a] != order[b]
    requires forall k :: k in order <==> k in index
    requires forall a, b :: 0 <= a < b < |order| ==> index[order[a]].lastAccessed <= index[order[b]].lastAccessed
    ensures LruPrefix(order[..i], index)
  {
    var p := order[..i];
    forall a, k | 0 <= a < |p| && k in index && k !in p
      ensures index[p[a]].lastAccessed <= index[k].lastAccessed
    {
      var b :| 0 <= b < |order| && order[b] == k;
      assert forall c :: 0 <= c < i ==> p[c] == order[c];
    }
  }

  /**
   * With the corrected ordering, a put followed by a get of the same
   * artifact, type and parameters, before anything else changes, returns
   * the result just stored.
   */
  method PutThenGet(c: Cache, digests: map<string, string>, path: string, analysisType: string, params: Entries,
                    result: Value, size: nat, now: nat, later: int)
    returns (r: Option<Value>)
    requires c.Valid() && c.enabled && DistinctKeys(params)
    modifies c
    ensures r == Some(result)
  {
    var ok, evicted := c.PutChecked(digests, path, analysisType, params, result, size, now);
    r := c.Get(digests, path, analysisType, params, later);
  }

  /**
   * As written, re-storing an artifact within the same second under size
   * pressure evicts the artifact's previous row, whose payload file name is
   * the one just written; the new row then points at a deleted file and the
   * next get is a miss. Here the cache starts empty, a small result is
   * stored and read back, and a result of the whole budget is stored in the
   * same second.
   */
  method SameSecondRePutLosesResult(c: Cache, digests: map<string, string>, path: string, analysisType: string,
                                    params: Entries, v1: Value, v2: Value, size: nat, now1: nat, now2: nat)
    returns (first: Option<Value>, second: Option<Value>)
    requires c.enabled && c.index == map[] && c.files == map[] && DistinctKeys(params)
    requires size + size <= c.maxCacheBytes && c.maxCacheBytes > 0
    requires now1 / MicrosPerSecond == now2 / MicrosPerSecond
    modifies c
    ensures first == Some(v1)
    ensures second == None
  {
    first := StoreOnEmpty(c, digests, path, analysisType, params, v1, size, now1);
    var budget: nat := c.maxCacheBytes;
    ghost var key := KeyFor(digests, path, analysisType, params);
    ghost var name := RowFor(digests, path, analysisType, params, size, now1).resultFile;
    ghost var index1 := c.index;
    assert index1.Keys == {key} && index1[key].resultFile == name;
    assert RowFor(digests, path, analysisType, params, budget, now2).resultFile == name;
    SingletonSize(name, Payload(v2, budget));
    assert Written(c.files, digests, path, analysisType, params, v2, budget, now2) == map[name := Payload(v2, budget)];
    var ok2, ev2 := c.Put(digests, path, analysisType, params, v2, budget, now2);
    OnlyVictim(ev2, index1, key);
    assert FilesOf(ev2, index1) == {name};
    assert c.files == map[];
    second := c.Get(digests, path, analysisType, params, now2);
  }

  /** On an empty cache, a put of a result within half the budget is read back. */
  method StoreOnEmpty(c: Cache, digests: map<string, string>, path: string, analysisType: string,
                      params: Entries, v: Value, size: nat, now: nat)
    returns (r: Option<Value>)
    requires c.enabled && c.index == map[] && c.files == map[] && DistinctKeys(params)
    requires size + size <= c.maxCacheBytes
    modifies c
    ensures r == Some(v)
    ensures c.Valid() && c.enabled
    ensures c.index == map[KeyFor(digests, path, analysisType, params) := RowFor(digests, path, analysisType, params, size, now)]
    ensures c.files == map[RowFor(digests, path, analysisType, params, size, now).resultFile := Payload(v, size)]
  {
    ghost var key := KeyFor(digests, path, analysisType, params);
    ghost var row := RowFor(digests, path, analysisType, params, size, now);
    SingletonSize(row.resultFile, Payload(v, size));
    var ok, evicted := c.Put(digests, path, analysisType, params, v, size, now);
    assert c.files == map[row.resultFile := Payload(v, size)];
    assert c.index == map[key := row];
    r := c.Get(digests, path, analysisType, params, now);
    assert row.(lastAccessed := now) == row;
  }

  /** A directory holding one file has that file's size in total. */
  lemma SingletonSize(name: PayloadName, p: Payload)
    ensures TotalSize(map[name := p]) == p.size
  {
    var m := map[name := p];
    TotalSizeRemove(m, name);
    assert m - {name} == map[];
  }

  /** From a table of one row, a non-empty eviction takes exactly that row. */
  lemma OnlyVictim(evicted: seq<CacheKey>, index: map<CacheKey, Entry>, key: CacheKey)
    requires index.Keys == {key}
    requires LruPrefix(evicted, index) && evicted != []
    ensures evicted == [key]
  {
    forall i | 0 <= i < |evicted| ensures evicted[i] == key {
      assert evicted[i] in index;
    }
    OnlyElement(evicted, key);
  }

  /** A non-empty sequence of distinct elements, all equal to `k`, is `[k]`. */
  lemma OnlyElement<T>(xs: seq<T>, k: T)
    requires xs != []
    requires forall i :: 0 <= i < |xs| ==> xs[i] == k
    requires forall i, j :: 0 <= i < j < |xs| ==> xs[i] != xs[j]
    ensures xs == [k]
  {
    assert xs[0] == xs[|xs| - 1];
  }
}
