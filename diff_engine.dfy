/**
 * `BinaryDiffEngine` of `binary_diff_engine.py`: input validation and
 * `comprehensive_diff`. As written, `comprehensive_diff` answers from the
 * analysis cache or rejects the inputs, because its validation always fails
 * (`ComprehensiveDiffAsWritten`). The members named `...Corrected` model the
 * engine with validation, cache key, metadata comparison and store as they
 * are evidently meant: it validates the two paths, runs the requested
 * comparisons and stores the report it returns.
 *
 * The tier-1 runs the comparisons make (`ToolRuns`) and the answer of the
 * AI analysis are inputs. Timestamps and similarity scores are not part of
 * the dicts modelled here.
 */
module DiffEngine {
  import opened Wrappers
  import opened Json
  import opened Bytes
  import opened Text
  import opened Tier1Runs
  import opened DiffParsing
  import opened DiffLevels
  import Sec = Security
  import AC = AnalysisCache
  import Tier1Analysis

  /* ---------------- input validation ---------------- */

  const MaxBinaryBytes: nat := 100 * 1024 * 1024

  /** The message `validate_inputs` makes of the `NameError` its first call raises. */
  const UndefinedValidator: string := "Validation error: name 'validate_binary_path' is not defined"

  /**
   * `validate_inputs` as written. No module of the repository defines
   * `validate_binary_path` or `check_file_size`: the package import of them
   * fails, and the star imports of the fallback do not bind them, so the
   * first call raises `NameError`, which the `except` turns into an error
   * for every pair of inputs.
   */
  function ValidateInputsAsWritten(files: Files, binary1: string, binary2: string): (bool, string)
  {
    (false, UndefinedValidator)
  }

  /**
   * `validate_binary_path` as the engine evidently means it: the path rule
   * of `PathValidator.is_safe_path` without its size bound, which
   * `check_file_size` applies next. Paths are taken as already resolved.
   */
  predicate BinaryPathValid(files: Files, path: string)
  {
    path in files && !Sec.UnderDangerousDir(path)
  }

  /** `check_file_size(path, limit)`: the file holds at most `limit` bytes. */
  predicate SizeWithin(files: Files, path: string, limit: nat)
    requires path in files
  {
    |files[path].content| <= limit
  }

  /** All that `validate_inputs` asks of one binary. */
  predicate Acceptable(files: Files, path: string)
  {
    BinaryPathValid(files, path) && SizeWithin(files, path, MaxBinaryBytes) && files[path].readable
  }

  /** The three messages `validate_inputs` rejects a binary with. */
  predicate RejectionOf(msg: string, path: string)
  {
    msg == "Invalid binary path: " + path || msg == "Binary too large: " + path || msg == "Cannot read binary: " + path
  }

  /**
   * `validate_inputs` with the two validators defined: both paths first,
   * then both sizes, then both read permissions.
   */
  function ValidateInputs(files: Files, binary1: string, binary2: string): (r: (bool, string))
    ensures r.0 <==> Acceptable(files, binary1) && Acceptable(files, binary2)
    ensures r.0 ==> r.1 == ""
    ensures !r.0 ==> RejectionOf(r.1, binary1) || RejectionOf(r.1, binary2)
    ensures !BinaryPathValid(files, binary1) ==> r.1 == "Invalid binary path: " + binary1
    ensures BinaryPathValid(files, binary1) && !BinaryPathValid(files, binary2) ==>
              r.1 == "Invalid binary path: " + binary2
  {
    if !BinaryPathValid(files, binary1) then (false, "Invalid binary path: " + binary1)
    else if !BinaryPathValid(files, binary2) then (false, "Invalid binary path: " + binary2)
    else if !SizeWithin(files, binary1, MaxBinaryBytes) then (false, "Binary too large: " + binary1)
    else if !SizeWithin(files, binary2, MaxBinaryBytes) then (false, "Binary too large: " + binary2)
    else if !files[binary1].readable then (false, "Cannot read binary: " + binary1)
    else if !files[binary2].readable then (false, "Cannot read binary: " + binary2)
    else (true, "")
  }

  /** The files as `security_utils` sees them, each path resolving to itself. */
  function View(files: Files): Sec.FileSystem
  {
    Sec.FileSystem(p => p, map p | p in files :: |files[p].content|)
  }

  /**
   * The corrected validation accepts a pair exactly when both binaries are
   * safe paths by the rule of `PathValidator.is_safe_path` (system
   * directories not allowed) and both are readable.
   */
  lemma ValidateInputsSafe(files: Files, binary1: string, binary2: string)
    ensures ValidateInputs(files, binary1, binary2).0 <==>
              && Sec.IsSafePath(View(files), binary1, false) && Sec.IsSafePath(View(files), binary2, false)
              && files[binary1].readable && files[binary2].readable
  {
    assert Sec.MaxFileSize == MaxBinaryBytes;
    assert View(files).fileSizes.Keys == files.Keys;
  }

  /**
   * A readable one-byte file in `/tmp` compared with itself: the corrected
   * validation accepts it, the validation as written rejects it.
   */
  lemma ValidationFinding()
    ensures var files := map["/tmp/a" := FileEntry([0x7f], true)];
            && ValidateInputs(files, "/tmp/a", "/tmp/a") == (true, "")
            && ValidateInputsAsWritten(files, "/tmp/a", "/tmp/a") == (false, UndefinedValidator)
  {
    var p := "/tmp/a";
    forall d | d in Sec.DangerousPaths
      ensures !(StartsWith(p, d + "/") || p == d)
    {
      assert |d| >= 2 && d[1] != p[1];
      assert (d + "/")[1] == d[1];
    }
  }

  /* ---------------- the cache key ---------------- */

  const DiffAnalysisType: string := "comprehensive_diff"

  const DefaultDiffTypes: seq<string> := ["file", "strings", "functions", "metadata"]

  /** `diff_types`, defaulting to all four comparisons. */
  function TypesOrDefault(diffTypes: Option<seq<string>>): (types: seq<string>)
    ensures diffTypes.Some? ==> types == diffTypes.value
    ensures diffTypes.None? ==> forall t :: t in types <==> t in {"file", "strings", "functions", "metadata"}
  {
    if diffTypes.None? then DefaultDiffTypes else diffTypes.value
  }

  /** A list of strings as a JSON value. */
  function StrList(xs: seq<string>): (v: Value)
    ensures v.List? && |v.items| == |xs| && forall i :: 0 <= i < |xs| ==> v.items[i] == Str(xs[i])
  {
    List(seq(|xs|, i requires 0 <= i < |xs| => Str(xs[i])))
  }

  /** The parameter dict `comprehensive_diff` gives the cache as written: the second binary by path only. */
  function DiffParamsAsWritten(binary2: string, types: seq<string>, aiAnalysis: bool): (ps: Entries)
    ensures DistinctKeys(ps)
  {
    [("binary2", Str(binary2)), ("diff_types", StrList(types)), ("ai_analysis", Bool(aiAnalysis))]
  }

  /**
   * The parameter dict with the second binary's content hash added, which
   * the unused `generate_diff_hash` evidently meant the key to cover.
   */
  function DiffParams(binary2: string, hash2: string, types: seq<string>, aiAnalysis: bool): (ps: Entries)
    ensures DistinctKeys(ps)
  {
    [("binary2", Str(binary2)), ("binary2_hash", Str(hash2)), ("diff_types", StrList(types)),
     ("ai_analysis", Bool(aiAnalysis))]
  }

  /**
   * `get_cached_result`, seen from a caller: what it returns is what the
   * lookup found; a hit stays found, and nothing is added to the table.
   */
  method Fetch(c: AC.Cache, digests: map<string, string>, path: string, analysisType: string, params: Entries,
               now: int)
    returns (r: Option<Value>)
    requires c.Valid() && DistinctKeys(params)
    modifies c
    ensures c.Valid()
    ensures r == old(AC.Lookup(c.enabled, c.index, c.files, digests, path, analysisType, params))
    ensures r.Some? ==> AC.Lookup(c.enabled, c.index, c.files, digests, path, analysisType, params) == r
    ensures c.index.Keys <= old(c.index.Keys)
  {
    r := c.Get(digests, path, analysisType, params, now);
  }

  /**
   * `cache_result` with the corrected ordering (`PutChecked`), seen from a caller: an
   * enabled cache then finds the result, and the only row added is its own.
   */
  method StoreCorrected(c: AC.Cache, digests: map<string, string>, path: string, analysisType: string, params: Entries,
               result: Value, size: nat, now: nat)
    requires c.Valid() && DistinctKeys(params)
    modifies c
    ensures c.Valid()
    ensures c.enabled ==> AC.Lookup(true, c.index, c.files, digests, path, analysisType, params) == Some(result)
    ensures c.index.Keys <= old(c.index.Keys) + {AC.KeyFor(digests, path, analysisType, params)}
  {
    var ok, evicted := c.PutChecked(digests, path, analysisType, params, result, size, now);
  }

  /** A result stored and then looked up by a key whose file hash is unchanged is found. */
  method StoreThenHit(c: AC.Cache, digests: map<string, string>, digests': map<string, string>, path: string,
                      analysisType: string, params: Entries, result: Value, size: nat, now: nat, later: int)
    returns (r: Option<Value>)
    requires c.Valid() && c.enabled && DistinctKeys(params)
    requires AC.FileHash(digests', path) == AC.FileHash(digests, path)
    modifies c
    ensures r == Some(result)
  {
    StoreCorrected(c, digests, path, analysisType, params, result, size, now);
    assert AC.KeyFor(digests', path, analysisType, params) == AC.KeyFor(digests, path, analysisType, params);
    r := Fetch(c, digests', path, analysisType, params, later);
  }

  /** In a cache that starts empty, a result stored under one key is not found under another. */
  method StoreThenMiss(c: AC.Cache, digests: map<string, string>, digests': map<string, string>, path: string,
                       analysisType: string, params: Entries, params': Entries, result: Value, size: nat,
                       now: nat, later: int)
    returns (r: Option<Value>)
    requires c.Valid() && c.index == map[] && DistinctKeys(params) && DistinctKeys(params')
    requires AC.KeyFor(digests, path, analysisType, params) != AC.KeyFor(digests', path, analysisType, params')
    modifies c
    ensures r == None
  {
    StoreCorrected(c, digests, path, analysisType, params, result, size, now);
    assert AC.KeyFor(digests', path, analysisType, params') !in c.index;
    r := Fetch(c, digests', path, analysisType, params', later);
  }

  /**
   * The as-written cache key (`DiffParamsAsWritten`) covers the first
   * binary's hash and the second binary's path only, so a report stored for
   * two binaries is returned for the same paths after the second binary's
   * content changed. The defect is latent behind the undefined validator:
   * `ComprehensiveDiffAsWritten` never stores a report, so this method
   * stores one through the corrected `StoreCorrected` (`PutChecked`). The
   * stale hit shows once validation is fixed, or when the shared cache
   * already holds a report under that key.
   */
  method StaleReportAsWritten(c: AC.Cache, digests: map<string, string>, binary1: string, binary2: string,
                              newHash: string, types: seq<string>, aiAnalysis: bool, report: Value,
                              size: nat, now: nat, later: int)
    returns (r: Option<Value>)
    requires c.Valid() && c.enabled && binary1 != binary2
    modifies c
    ensures r == Some(report)
  {
    var changed := digests[binary2 := newHash];
    r := StoreThenHit(c, digests, changed, binary1, DiffAnalysisType, DiffParamsAsWritten(binary2, types, aiAnalysis),
                      report, size, now, later);
  }

  /** With the second binary's hash in the parameters, different contents give different keys. */
  lemma DiffKeysDiffer(digests: map<string, string>, digests': map<string, string>, binary1: string,
                       binary2: string, types: seq<string>, aiAnalysis: bool)
    requires AC.FileHash(digests, binary2) != AC.FileHash(digests', binary2)
    ensures AC.KeyFor(digests, binary1, DiffAnalysisType, DiffParams(binary2, AC.FileHash(digests, binary2), types, aiAnalysis))
         != AC.KeyFor(digests', binary1, DiffAnalysisType, DiffParams(binary2, AC.FileHash(digests', binary2), types, aiAnalysis))
  {
    var h := AC.FileHash(digests, binary2);
    var ps := DiffParams(binary2, h, types, aiAnalysis);
    var qs := DiffParams(binary2, AC.FileHash(digests', binary2), types, aiAnalysis);
    assert ps[1] == ("binary2_hash", Str(h));
    assert ("binary2_hash", Str(h)) in multiset(ps);
    assert ("binary2_hash", Str(h)) !in multiset(qs);
  }

  /**
   * With the corrected key, a report stored for two binaries is not found
   * once the second binary's content changed (the cache starting empty).
   */
  method FreshReportCorrected(c: AC.Cache, digests: map<string, string>, binary1: string, binary2: string,
                              newHash: string, types: seq<string>, aiAnalysis: bool, report: Value,
                              size: nat, now: nat, later: int)
    returns (r: Option<Value>)
    requires c.Valid() && c.enabled && c.index == map[] && binary1 != binary2
    requires newHash != AC.FileHash(digests, binary2)
    modifies c
    ensures r == None
  {
    var changed := digests[binary2 := newHash];
    DiffKeysDiffer(digests, changed, binary1, binary2, types, aiAnalysis);
    r := StoreThenMiss(c, digests, changed, binary1, DiffAnalysisType,
                       DiffParams(binary2, AC.FileHash(digests, binary2), types, aiAnalysis),
                       DiffParams(binary2, AC.FileHash(changed, binary2), types, aiAnalysis), report, size, now, later);
  }

  /* ---------------- the report ---------------- */

  /** The results of the tier-1 runs the comparisons make, for the first and the second binary. */
  datatype ToolRuns = ToolRuns(
    strings1: Result<map<string, StringsEntry>>, strings2: Result<map<string, StringsEntry>>,
    objdump1: Result<map<string, ToolEntry>>, objdump2: Result<map<string, ToolEntry>>,
    file1: Result<map<string, ToolEntry>>, file2: Result<map<string, ToolEntry>>,
    readelf1: Result<map<string, ToolEntry>>, readelf2: Result<map<string, ToolEntry>>)

  /**
   * `results["results"]`: one entry per comparison run, absent for one not
   * requested.
   */
  datatype Levels = Levels(file: Option<FileLevel>, strings: Option<StringLevel>,
                           functions: Option<FunctionLevel>, metadata: Option<MetadataResult>)

  /** The dict `comprehensive_diff` builds; `ai` is present when AI analysis was asked for. */
  datatype DiffReport = DiffReport(binary1: string, binary2: string, diffTypes: seq<string>, aiAnalysis: bool,
                                   results: Levels, ai: Option<Value>)

  /** What `comprehensive_diff` returns: a cached dict, a validation error, or a new report. */
  datatype DiffOutcome = Cached(value: Value) | Rejected(error: string) | Performed(report: DiffReport)

  /** The comparisons of a report: exactly the requested ones, each the comparison's own result. */
  predicate LevelsFor(results: Levels, files: Files, runs: ToolRuns, binary1: string, binary2: string,
                      types: seq<string>)
  {
    && (results.file.Some? <==> "file" in types)
    && (results.strings.Some? <==> "strings" in types)
    && (results.functions.Some? <==> "functions" in types)
    && (results.metadata.Some? <==> "metadata" in types)
    && (results.file.Some? ==> results.file.value == FileLevelOf(files, binary1, binary2))
    && (results.strings.Some? ==> StringLevelOutcome(runs.strings1, runs.strings2, results.strings.value))
    && (results.functions.Some? ==> FunctionLevelOutcome(runs.objdump1, runs.objdump2, results.functions.value))
    && (results.metadata.Some? ==>
          results.metadata.value == MetadataDiff(runs.file1, runs.file2, runs.readelf1, runs.readelf2))
  }

  /**
   * The part of `comprehensive_diff` inside its `try`: the requested
   * comparisons, in order, with the corrected metadata comparison.
   */
  method RunLevelsCorrected(files: Files, runs: ToolRuns, binary1: string, binary2: string, types: seq<string>)
    returns (results: Levels)
    ensures LevelsFor(results, files, runs, binary1, binary2, types)
  {
    var file: Option<FileLevel> := None;
    var strings: Option<StringLevel> := None;
    var functions: Option<FunctionLevel> := None;
    var metadata: Option<MetadataResult> := None;
    if "file" in types {
      var f := FileLevelDiff(files, binary1, binary2);
      file := Some(f);
    }
    if "strings" in types {
      var s := StringLevelDiff(runs.strings1, runs.strings2);
      strings := Some(s);
    }
    if "functions" in types {
      var f := FunctionLevelDiff(runs.objdump1, runs.objdump2);
      functions := Some(f);
    }
    if "metadata" in types {
      metadata := Some(MetadataDiff(runs.file1, runs.file2, runs.readelf1, runs.readelf2));
    }
    results := Levels(file, strings, functions, metadata);
  }

  /** The report `comprehensive_diff` returns for valid inputs. */
  predicate ReportFor(report: DiffReport, files: Files, runs: ToolRuns, binary1: string, binary2: string,
                      types: seq<string>, aiAnalysis: bool, aiResult: Value)
  {
    && report.binary1 == binary1 && report.binary2 == binary2
    && report.diffTypes == types && report.aiAnalysis == aiAnalysis
    && report.ai == (if aiAnalysis then Some(aiResult) else None)
    && LevelsFor(report.results, files, runs, binary1, binary2, types)
  }

  /** The report for valid inputs: the requested comparisons (corrected metadata) and, when asked for, the AI answer. */
  method PerformCorrected(files: Files, runs: ToolRuns, binary1: string, binary2: string, types: seq<string>,
                 aiAnalysis: bool, aiResult: Value)
    returns (report: DiffReport)
    ensures ReportFor(report, files, runs, binary1, binary2, types, aiAnalysis, aiResult)
  {
    var results := RunLevelsCorrected(files, runs, binary1, binary2, types);
    report := DiffReport(binary1, binary2, types, aiAnalysis, results, if aiAnalysis then Some(aiResult) else None);
  }

  /**
   * What `comprehensive_diff` returns given what the cache lookup found: a
   * non-empty cached dict as it is, else the validation error, else the
   * report for valid inputs.
   */
  predicate DiffOutcomeFor(r: DiffOutcome, hit: Option<Value>, files: Files, runs: ToolRuns, binary1: string,
                           binary2: string, types: seq<string>, aiAnalysis: bool, aiResult: Value)
  {
    var valid := ValidateInputs(files, binary1, binary2);
    if hit.Some? && Truthy(hit.value) then r == Cached(hit.value)
    else if !valid.0 then r == Rejected(valid.1)
    else r.Performed? && ReportFor(r.report, files, runs, binary1, binary2, types, aiAnalysis, aiResult)
  }

  /* ---------------- the report as the dict the cache stores ---------------- */

  /** `bytes.hex()` of one byte: two lower-case hex digits. */
  function ByteHex(b: byte): string
  {
    [Tier1Analysis.HexDigit(b as int / 16), Tier1Analysis.HexDigit(b as int % 16)]
  }

  function ListOf<T>(xs: seq<T>, f: T -> Value): Value
  {
    List(seq(|xs|, i requires 0 <= i < |xs| => f(xs[i])))
  }

  function HexOrNone(b: Option<byte>): Value
  {
    if b.Some? then Str(ByteHex(b.value)) else Null
  }

  function PositionValue(p: DiffPosition): Value
  {
    Obj([("position", Int(p.position)), ("byte1", HexOrNone(p.byte1)), ("byte2", HexOrNone(p.byte2))])
  }

  function LevelError(error: string, diffType: string): Value
  {
    Obj([("error", Str(error)), ("diff_type", Str(diffType))])
  }

  function FileLevelValue(binary1: string, binary2: string, f: FileLevel): Value
  {
    match f
    case FileLevelFailed(error) => LevelError(error, "file_level")
    case FileCompared(identical, sizeDiff, count, positions) =>
      Obj([("diff_type", Str("file_level")), ("binary1", Str(binary1)), ("binary2", Str(binary2)),
           ("identical", Bool(identical)), ("size_diff", Int(sizeDiff)), ("byte_diff_count", Int(count)),
           ("diff_positions", ListOf(positions, PositionValue))])
  }

  function StringLevelValue(binary1: string, binary2: string, s: StringLevel): Value
  {
    match s
    case StringLevelFailed(error) => LevelError(error, "string_level")
    case StringsCompared(count1, count2, added, removed, common) =>
      Obj([("diff_type", Str("string_level")), ("binary1", Str(binary1)), ("binary2", Str(binary2)),
           ("strings1_count", Int(count1)), ("strings2_count", Int(count2)),
           ("added_strings", StrList(added)), ("removed_strings", StrList(removed)),
           ("common_strings_count", Int(common))])
  }

  function ChangedValue(c: ChangedFunction): Value
  {
    Obj([("function", Str(c.name)), ("instructions1", Int(c.instructions1)), ("instructions2", Int(c.instructions2))])
  }

  function FunctionLevelValue(binary1: string, binary2: string, f: FunctionLevel): Value
  {
    match f
    case FunctionLevelFailed(error) => LevelError(error, "function_level")
    case FunctionsCompared(count1, count2, added, removed, changed) =>
      Obj([("diff_type", Str("function_level")), ("binary1", Str(binary1)), ("binary2", Str(binary2)),
           ("functions1_count", Int(count1)), ("functions2_count", Int(count2)),
           ("added_functions", StrList(added)), ("removed_functions", StrList(removed)),
           ("changed_functions", ListOf(changed, ChangedValue))])
  }

  function FileTypeValue(c: FileTypeChange): Value
  {
    Obj([("category", Str("file_type")), ("binary1", Str(c.binary1)), ("binary2", Str(c.binary2))])
  }

  function HeaderValue(h: HeaderDiff): Value
  {
    Obj([("line", Int(h.line)), ("binary1", Str(h.binary1)), ("binary2", Str(h.binary2))])
  }

  /** The metadata dict after `results.update(elf_diff)`. */
  function MetadataValue(binary1: string, binary2: string, m: MetadataResult): Value
  {
    match m
    case MetadataFailed(error) => LevelError(error, "metadata")
    case Metadata(fileTypeChanged, differences, elf) =>
      Obj([("diff_type", Str("metadata")), ("binary1", Str(binary1)), ("binary2", Str(binary2)),
           ("file_type_changed", Bool(fileTypeChanged)), ("architecture_changed", Bool(false)),
           ("entry_point_changed", Bool(false)), ("sections_changed", Bool(elf.sectionsChanged)),
           ("differences", ListOf(differences, FileTypeValue)),
           ("elf_header_differences", ListOf(elf.differences, HeaderValue))])
  }

  function LevelField<T>(key: string, level: Option<T>, encode: T -> Value): Entries
  {
    if level.Some? then [(key, encode(level.value))] else []
  }

  /** `results["results"]`, its entries in the order the comparisons run. */
  function ResultsValue(binary1: string, binary2: string, results: Levels): Value
  {
    Obj(LevelField("file_level", results.file, f => FileLevelValue(binary1, binary2, f)) +
        LevelField("string_level", results.strings, s => StringLevelValue(binary1, binary2, s)) +
        LevelField("function_level", results.functions, f => FunctionLevelValue(binary1, binary2, f)) +
        LevelField("metadata_level", results.metadata, m => MetadataValue(binary1, binary2, m)))
  }

  /** The report as the dict `comprehensive_diff` returns and stores; never empty, so always a cache hit. */
  function ReportValue(report: DiffReport): (v: Value)
    ensures Truthy(v) && v.Obj? && v.fields[0] == ("analysis_type", Str("comprehensive_binary_diff"))
  {
    Obj([("analysis_type", Str("comprehensive_binary_diff")), ("version", Str("1.3.0-dev")),
         ("binary1", Str(report.binary1)), ("binary2", Str(report.binary2)),
         ("diff_types_performed", StrList(report.diffTypes)), ("ai_analysis_enabled", Bool(report.aiAnalysis)),
         ("results", ResultsValue(report.binary1, report.binary2, report.results))] +
        (if report.ai.Some? then [("ai_analysis", report.ai.value)] else []))
  }

  /** The dict a call returns. */
  function OutcomeValue(o: DiffOutcome): (v: Value)
    ensures o.Rejected? ==> v == Obj([("error", Str(o.error))])
    ensures o.Performed? ==> v == ReportValue(o.report)
  {
    match o
    case Cached(value) => value
    case Rejected(error) => Obj([("error", Str(error))])
    case Performed(report) => ReportValue(report)
  }

  /* ---------------- the engine ---------------- */

  class BinaryDiffEngine {
    /** The analysis cache, or `null` when the engine was made with caching off. */
    const cache: AC.Cache?

    ghost predicate Valid()
      reads cache
    {
      cache != null ==> cache.Valid()
    }

    /** `__init__`: the cache opened by the caller is used when caching is on. */
    constructor (cacheEnabled: bool, store: AC.Cache)
      requires store.Valid()
      ensures Valid()
      ensures cache == (if cacheEnabled then store else null)
    {
      cache := if cacheEnabled then store else null;
    }

    /** What a lookup of the report finds in the cache as it is now. */
    ghost function Hit(digests: map<string, string>, binary1: string, params: Entries): Option<Value>
      requires DistinctKeys(params)
      reads cache
    {
      if cache == null then None
      else AC.Lookup(cache.enabled, cache.index, cache.files, digests, binary1, DiffAnalysisType, params)
    }

    /**
     * `comprehensive_diff` as written: the cache is asked under the key of
     * `DiffParamsAsWritten`; a non-empty cached dict is returned as it is,
     * and every other call is rejected with the `NameError` message of
     * `ValidateInputsAsWritten`, storing nothing. The comparisons and the
     * store after the validation are never reached.
     */
    method ComprehensiveDiffAsWritten(files: Files, digests: map<string, string>, binary1: string, binary2: string,
                                      diffTypes: Option<seq<string>>, aiAnalysis: bool, now: nat)
      returns (r: DiffOutcome)
      requires Valid()
      modifies cache
      ensures Valid()
      ensures var hit := old(Hit(digests, binary1, DiffParamsAsWritten(binary2, TypesOrDefault(diffTypes), aiAnalysis)));
              r == if hit.Some? && Truthy(hit.value) then Cached(hit.value) else Rejected(UndefinedValidator)
      ensures cache != null ==> cache.index.Keys <= old(cache.index.Keys)
    {
      var params := DiffParamsAsWritten(binary2, TypesOrDefault(diffTypes), aiAnalysis);
      if cache != null {
        var cached := Fetch(cache, digests, binary1, DiffAnalysisType, params, now);
        if cached.Some? && Truthy(cached.value) {
          return Cached(cached.value);
        }
      }
      var valid := ValidateInputsAsWritten(files, binary1, binary2);
      r := Rejected(valid.1);
    }

    /**
     * `comprehensive_diff` corrected: the key covers the second binary's
     * content, validation is the corrected `ValidateInputs`, the metadata
     * level is `MetadataDiff` and the store is `PutChecked`. A non-empty
     * cached dict is returned as it is;
     * otherwise invalid inputs give their error and nothing is stored;
     * otherwise the report holds exactly the requested comparisons and
     * the AI answer when asked for, and is stored. After any call that
     * was not rejected, the cache holds what the call returned.
     */
    method ComprehensiveDiffCorrected(files: Files, digests: map<string, string>, runs: ToolRuns,
                             binary1: string, binary2: string, diffTypes: Option<seq<string>>,
                             aiAnalysis: bool, aiResult: Value, size: nat, now: nat)
      returns (r: DiffOutcome)
      requires Valid()
      modifies cache
      ensures Valid()
      ensures var types := TypesOrDefault(diffTypes);
              var params := DiffParams(binary2, AC.FileHash(digests, binary2), types, aiAnalysis);
              DiffOutcomeFor(r, old(Hit(digests, binary1, params)), files, runs, binary1, binary2, types, aiAnalysis, aiResult)
      ensures cache != null && cache.enabled && !r.Rejected? ==>
                Hit(digests, binary1, DiffParams(binary2, AC.FileHash(digests, binary2), TypesOrDefault(diffTypes), aiAnalysis))
                == Some(OutcomeValue(r))
      ensures cache != null && r.Rejected? ==> cache.index.Keys <= old(cache.index.Keys)
    {
      var types := TypesOrDefault(diffTypes);
      var params := DiffParams(binary2, AC.FileHash(digests, binary2), types, aiAnalysis);
      r := DiffKeyedCorrected(files, digests, runs, binary1, binary2, types, params, aiAnalysis, aiResult, size, now);
    }

    /** The corrected `comprehensive_diff` once its parameter dict is built. */
    method DiffKeyedCorrected(files: Files, digests: map<string, string>, runs: ToolRuns, binary1: string, binary2: string,
                     types: seq<string>, params: Entries, aiAnalysis: bool, aiResult: Value, size: nat, now: nat)
      returns (r: DiffOutcome)
      requires Valid() && DistinctKeys(params)
      modifies cache
      ensures Valid()
      ensures DiffOutcomeFor(r, old(Hit(digests, binary1, params)), files, runs, binary1, binary2, types, aiAnalysis, aiResult)
      ensures cache != null && cache.enabled && !r.Rejected? ==> Hit(digests, binary1, params) == Some(OutcomeValue(r))
      ensures cache != null && r.Rejected? ==> cache.index.Keys <= old(cache.index.Keys)
    {
      if cache != null {
        var cached := Fetch(cache, digests, binary1, DiffAnalysisType, params, now);
        if cached.Some? && Truthy(cached.value) {
          return Cached(cached.value);
        }
      }
      var valid := ValidateInputs(files, binary1, binary2);
      if !valid.0 {
        return Rejected(valid.1);
      }
      var report := PerformCorrected(files, runs, binary1, binary2, types, aiAnalysis, aiResult);
      if cache != null {
        StoreCorrected(cache, digests, binary1, DiffAnalysisType, params, ReportValue(report), size, now);
      }
      r := Performed(report);
    }
  }

  /**
   * In the corrected engine, with the cache on and valid inputs, repeating a
   * call returns, from the cache, the dict the first call returned.
   */
  method DiffTwiceCorrected(e: BinaryDiffEngine, files: Files, digests: map<string, string>, runs: ToolRuns,
                   binary1: string, binary2: string, diffTypes: Option<seq<string>>, aiAnalysis: bool,
                   aiResult: Value, size: nat, now1: nat, now2: nat)
    returns (first: DiffOutcome, second: DiffOutcome)
    requires e.Valid() && e.cache != null && e.cache.enabled
    requires ValidateInputs(files, binary1, binary2).0
    modifies e.cache
    ensures !first.Rejected?
    ensures second == Cached(OutcomeValue(first))
  {
    first := e.ComprehensiveDiffCorrected(files, digests, runs, binary1, binary2, diffTypes, aiAnalysis, aiResult, size, now1);
    second := e.ComprehensiveDiffCorrected(files, digests, runs, binary1, binary2, diffTypes, aiAnalysis, aiResult, size, now2);
  }

  /**
   * As written, a pair whose report is not in the cache is rejected on every
   * call, and the cache never gains it: the second call is rejected again.
   */
  method DiffTwiceAsWritten(e: BinaryDiffEngine, files: Files, digests: map<string, string>,
                            binary1: string, binary2: string, diffTypes: Option<seq<string>>, aiAnalysis: bool,
                            now1: nat, now2: nat)
    returns (first: DiffOutcome, second: DiffOutcome)
    requires e.Valid() && e.cache != null
    requires AC.KeyFor(digests, binary1, DiffAnalysisType,
                       DiffParamsAsWritten(binary2, TypesOrDefault(diffTypes), aiAnalysis)) !in e.cache.index
    modifies e.cache
    ensures first == Rejected(UndefinedValidator) && second == Rejected(UndefinedValidator)
  {
    first := e.ComprehensiveDiffAsWritten(files, digests, binary1, binary2, diffTypes, aiAnalysis, now1);
    second := e.ComprehensiveDiffAsWritten(files, digests, binary1, binary2, diffTypes, aiAnalysis, now2);
  }
}
