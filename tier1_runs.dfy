/**
 * The bodies of the `run_*_analysis` functions of `tier1_tools.py`: which
 * commands they build, how they turn each command's outcome into the
 * `results` dict, and how they consult and fill the file cache. Commands
 * are not run: their outcomes come from `run`, a function from the argument
 * vector to `(success, stdout, stderr)`.
 */
module Tier1Runs {
  import opened Wrappers
  import opened Text
  import opened Json
  import opened Tier1Analysis
  import opened Tier1Summaries
  import opened Tier1Cache
  import opened Bytes

  /** `run_command`'s `(success, stdout, stderr)`. */
  datatype Outcome = Outcome(success: bool, stdout: string, stderr: string)

  type Runner = seq<string> -> Outcome

  /** `str(n)`. */
  function Decimal(n: int): (r: string)
    ensures r != []
    ensures n >= 0 ==> forall i :: 0 <= i < |r| ==> IsDigit(r[i])
    ensures n < 0 ==> r[0] == '-'
  {
    if n < 0 then "-" + NatDecimal(-n) else NatDecimal(n)
  }

  function NatDecimal(n: nat): (r: string)
    ensures r != [] && forall i :: 0 <= i < |r| ==> IsDigit(r[i])
  {
    var d := ('0' as int + n % 10) as char;
    if n < 10 then [d] else NatDecimal(n / 10) + [d]
  }

  /**
   * The dict a `for k in keys: if k in table: result[k] = f(k)` loop builds:
   * one entry for each listed key the table knows.
   */
  function Tabulate<V>(keys: seq<string>, known: set<string>, f: string -> V): (r: map<string, V>)
    ensures r.Keys == set k | k in keys && k in known
    ensures forall k :: k in r ==> r[k] == f(k)
  {
    if keys == [] then map[]
    else
      var init := keys[..|keys| - 1];
      var k := keys[|keys| - 1];
      assert keys == init + [k];
      var acc := Tabulate(init, known, f);
      if k in known then acc[k := f(k)] else acc
  }

  /* ---------------- strings ---------------- */

  /** The `-e` options of `encoding_commands`. */
  const EncodingFlags: map<string, seq<string>> := map["ascii" := [], "utf-8" := ["-e", "s"], "utf-16" := ["-e", "l"]]
  const AllEncodings: seq<string> := ["ascii", "utf-8", "utf-16"]
  const MaxStoredStrings: nat := 1000

  function StringsCommand(enc: string, minLength: int, path: string): seq<string>
    requires enc in EncodingFlags
  {
    ["strings", "-a"] + EncodingFlags[enc] + ["-" + Decimal(minLength), path]
  }

  function EncodingsToRun(encoding: string): seq<string>
  {
    if encoding != "all" then [encoding] else AllEncodings
  }

  /** `[s.strip() for s in stdout.split('\n') if s.strip()]`. */
  function StrippedLines(lines: seq<string>): (r: seq<string>)
    ensures |r| <= |lines|
    ensures forall i :: 0 <= i < |r| ==> r[i] != [] && Trimmed(r[i])
  {
    if lines == [] then []
    else
      var t := Strip(lines[0]);
      var rest := StrippedLines(lines[1..]);
      if t != [] then [t] + rest else rest
  }

  /** One encoding's entry: the count, the first thousand strings and their classification; or the failure. */
  datatype StringsEntry =
    | Extracted(count: nat, strings: seq<string>, sample: Patterns)
    | ExtractFailed(error: string)

  /** The entry built from the stripped non-blank lines of a successful run and their classification. */
  function ExtractedFrom(all: seq<string>, sample: Patterns): StringsEntry
  {
    Extracted(|all|, Take(all, MaxStoredStrings), sample)
  }

  function StringsEntryFor(enc: string, minLength: int, path: string, run: Runner): StringsEntry
    requires enc in EncodingFlags
  {
    var out := run(StringsCommand(enc, minLength, path));
    if out.success then
      var all := StrippedLines(Lines(out.stdout));
      ExtractedFrom(all, AnalyzeStringsPatterns(Take(all, SampleSize)))
    else ExtractFailed("Failed to extract " + enc + " strings: " + out.stderr)
  }

  /** The `results` dict of `run_strings_analysis`. */
  function StringsResults(encoding: string, minLength: int, path: string, run: Runner): map<string, StringsEntry>
  {
    Tabulate(EncodingsToRun(encoding), EncodingFlags.Keys,
      (e: string) => if e in EncodingFlags then StringsEntryFor(e, minLength, path, run) else ExtractFailed(""))
  }

  /** "all" runs the three encodings. */
  lemma StringsAllEncodings(minLength: int, path: string, run: Runner)
    ensures StringsResults("all", minLength, path, run).Keys == {"ascii", "utf-8", "utf-16"}
  {
    assert EncodingFlags.Keys == {"ascii", "utf-8", "utf-16"};
    assert (set k | k in AllEncodings && k in EncodingFlags.Keys) == {"ascii", "utf-8", "utf-16"};
  }

  /** A known encoding runs alone, and an unknown one produces no entry at all. */
  lemma StringsOneEncoding(encoding: string, minLength: int, path: string, run: Runner)
    requires encoding != "all"
    ensures encoding in EncodingFlags ==> StringsResults(encoding, minLength, path, run).Keys == {encoding}
    ensures encoding !in EncodingFlags ==> StringsResults(encoding, minLength, path, run) == map[]
  {
  }

  /** An entry is an extraction exactly when the command succeeded; a failed one reports the encoding and the error output. */
  lemma StringsEntryOutcome(enc: string, minLength: int, path: string, run: Runner)
    requires enc in EncodingFlags
    ensures var e := StringsEntryFor(enc, minLength, path, run);
      var out := run(StringsCommand(enc, minLength, path));
      && (out.success <==> e.Extracted?)
      && (e.ExtractFailed? ==> e.error == "Failed to extract " + enc + " strings: " + out.stderr)
  {
  }

  /**
   * A successful extraction counts every non-blank line and keeps at most the
   * first thousand, each stripped and non-empty.
   */
  lemma ExtractedKeeps(all: seq<string>, sample: Patterns)
    requires forall i :: 0 <= i < |all| ==> all[i] != [] && Trimmed(all[i])
    ensures var e := ExtractedFrom(all, sample);
      && e.count == |all|
      && |e.strings| <= MaxStoredStrings && |e.strings| <= e.count
      && e.strings == all[..|e.strings|]
      && (e.count <= MaxStoredStrings ==> |e.strings| == e.count)
      && (forall i :: 0 <= i < |e.strings| ==> e.strings[i] != [] && Trimmed(e.strings[i]))
  {
    var kept := Take(all, MaxStoredStrings);
    assert forall i :: 0 <= i < |kept| ==> kept[i] == all[i];
  }

  /* ---------------- objdump ---------------- */

  /** `objdump_commands`. */
  const ObjdumpFlags: map<string, string> :=
    map["headers" := "-h", "disassemble" := "-d", "symbols" := "-t", "sections" := "-h", "relocs" := "-r", "dynamic" := "-T"]
  const ObjdumpAll: seq<string> := ["headers", "disassemble", "symbols", "sections", "relocs", "dynamic"]

  function ObjdumpCommand(analysis: string, architecture: string, path: string): seq<string>
    requires analysis in ObjdumpFlags
  {
    ["objdump", ObjdumpFlags[analysis]] + (if architecture != "" then ["-m", architecture] else []) + [path]
  }

  /** A command's entry in `results`: its output and summary, or its error output. */
  datatype ToolEntry =
    | Ran(output: string, summary: Summary)
    | RunFailed(error: string)

  function ObjdumpEntry(analysis: string, architecture: string, path: string, run: Runner): ToolEntry
    requires analysis in ObjdumpFlags
  {
    var out := run(ObjdumpCommand(analysis, architecture, path));
    if out.success then Ran(out.stdout, ObjdumpSummary(analysis, out.stdout)) else RunFailed(out.stderr)
  }

  /** The `results` dict of `run_objdump_analysis`. */
  function ObjdumpResults(analysisType: string, architecture: string, path: string, run: Runner): map<string, ToolEntry>
  {
    Tabulate(if analysisType != "all" then [analysisType] else ObjdumpAll, ObjdumpFlags.Keys,
      (a: string) => if a in ObjdumpFlags then ObjdumpEntry(a, architecture, path, run) else RunFailed(""))
  }

  /** "all" runs all six analyses. */
  lemma ObjdumpAllAnalyses(architecture: string, path: string, run: Runner)
    ensures ObjdumpResults("all", architecture, path, run).Keys == ObjdumpFlags.Keys
  {
    assert forall a :: a in ObjdumpFlags ==> a in ObjdumpAll;
  }

  /**
   * A known type runs alone and an unknown type produces no entry; every
   * entry is the outcome of that analysis's command.
   */
  lemma ObjdumpOneAnalysis(analysisType: string, architecture: string, path: string, run: Runner)
    requires analysisType != "all"
    ensures analysisType in ObjdumpFlags ==> ObjdumpResults(analysisType, architecture, path, run).Keys == {analysisType}
    ensures analysisType !in ObjdumpFlags ==> ObjdumpResults(analysisType, architecture, path, run) == map[]
    ensures forall a :: a in ObjdumpResults(analysisType, architecture, path, run) ==>
              a in ObjdumpFlags && ObjdumpResults(analysisType, architecture, path, run)[a] == ObjdumpEntry(a, architecture, path, run)
  {
  }

  /** The command carries `-m architecture` exactly when an architecture is given. */
  lemma ObjdumpArchitectureFlag(analysis: string, architecture: string, path: string)
    requires analysis in ObjdumpFlags
    ensures var cmd := ObjdumpCommand(analysis, architecture, path);
      && cmd[..2] == ["objdump", ObjdumpFlags[analysis]] && cmd[|cmd| - 1] == path
      && (architecture != "" <==> |cmd| == 5 && cmd[2..4] == ["-m", architecture])
  {
  }

  /* ---------------- readelf ---------------- */

  /** `readelf_commands`. */
  const ReadelfFlags: map<string, string> :=
    map["headers" := "-h", "sections" := "-S", "symbols" := "-s", "relocs" := "-r", "dynamic" := "-d", "notes" := "-n"]
  const ReadelfAll: seq<string> := ["headers", "sections", "symbols", "relocs", "dynamic", "notes"]

  function ReadelfEntry(analysis: string, path: string, run: Runner): ToolEntry
    requires analysis in ReadelfFlags
  {
    var out := run(["readelf", ReadelfFlags[analysis], path]);
    if out.success then Ran(out.stdout, ReadelfSummary(analysis, out.stdout)) else RunFailed(out.stderr)
  }

  /** The `results` dict of `run_readelf_analysis`. */
  function ReadelfResults(analysisType: string, path: string, run: Runner): map<string, ToolEntry>
  {
    Tabulate(if analysisType != "all" then [analysisType] else ReadelfAll, ReadelfFlags.Keys,
      (a: string) => if a in ReadelfFlags then ReadelfEntry(a, path, run) else RunFailed(""))
  }

  /** "all" runs all six analyses. */
  lemma ReadelfAllAnalyses(path: string, run: Runner)
    ensures ReadelfResults("all", path, run).Keys == ReadelfFlags.Keys
  {
    assert forall a :: a in ReadelfFlags ==> a in ReadelfAll;
  }

  /** A known type runs alone and an unknown type produces no entry. */
  lemma ReadelfOneAnalysis(analysisType: string, path: string, run: Runner)
    requires analysisType != "all"
    ensures analysisType in ReadelfFlags ==> ReadelfResults(analysisType, path, run).Keys == {analysisType}
    ensures analysisType !in ReadelfFlags ==> ReadelfResults(analysisType, path, run) == map[]
    ensures forall a :: a in ReadelfResults(analysisType, path, run) ==>
              a in ReadelfFlags && ReadelfResults(analysisType, path, run)[a] == ReadelfEntry(a, path, run)
  {
  }

  /* ---------------- hexdump ---------------- */

  /** `format_options`. */
  const HexdumpFlags: map<string, string> := map["canonical" := "-C", "octal" := "-b", "hex" := "-x", "decimal" := "-d"]

  function HexdumpCommand(format: string, offset: int, length: int, path: string): seq<string>
    requires format in HexdumpFlags
  {
    ["hexdump", HexdumpFlags[format], "-s", Decimal(offset), "-n", Decimal(length), path]
  }

  /** The exact parts of `pattern_analysis`: the null-byte count and the magic signatures. */
  datatype HexPatterns = HexPatterns(nullBytes: nat, magicSignatures: seq<string>)

  function HexPatternsOf(output: string): HexPatterns
  {
    var bs := HexBytes(output);
    if bs == [] then HexPatterns(0, []) else HexPatterns(NullBytes(bs), MagicSignatures(bs))
  }

  /** What `run_hexdump_analysis` adds to its result: the dump, the failure, or the unknown format. */
  datatype HexdumpOutcome =
    | Dumped(output: string, patterns: HexPatterns)
    | DumpFailed(error: string)
    | UnknownFormat(error: string)

  function HexdumpAnalysis(format: string, offset: int, length: int, path: string, run: Runner): HexdumpOutcome
  {
    if format in HexdumpFlags then
      var out := run(HexdumpCommand(format, offset, length, path));
      if out.success then Dumped(out.stdout, HexPatternsOf(out.stdout)) else DumpFailed(out.stderr)
    else UnknownFormat("Unknown format: " + format)
  }

  /**
   * An unknown format fails without running anything: its outcome is the
   * same whatever the commands would do. A known format succeeds exactly
   * when its command does.
   */
  lemma HexdumpFormats(format: string, offset: int, length: int, path: string, run: Runner, other: Runner)
    ensures format !in HexdumpFlags ==>
              HexdumpAnalysis(format, offset, length, path, run) == UnknownFormat("Unknown format: " + format) &&
              HexdumpAnalysis(format, offset, length, path, other) == HexdumpAnalysis(format, offset, length, path, run)
    ensures format in HexdumpFlags ==>
              (HexdumpAnalysis(format, offset, length, path, run).Dumped? <==>
               run(HexdumpCommand(format, offset, length, path)).success)
  {
  }

  /** On a dump of well-formed lines the patterns count exactly the zero bytes written. */
  lemma HexPatternsOfDumpLine(offset: string, bs: seq<byte>)
    requires IsWord(offset)
    ensures HexPatternsOf(DumpLine(offset, bs)).nullBytes == multiset(bs)[0]
    ensures |HexPatternsOf(DumpLine(offset, bs)).magicSignatures| <= 1
  {
    DumpLineRoundTrip(offset, bs);
    AtMostOneMagic(bs);
  }

  /* ---------------- file ---------------- */

  /** `run_file_analysis`'s three `file` invocations. */
  const FileCommands: map<string, seq<string>> := map["basic" := [], "mime" := ["-i"], "detailed" := ["-L", "-b"]]

  function FileEntry(kind: string, path: string, run: Runner): ToolEntry
    requires kind in FileCommands
  {
    var out := run(["file"] + FileCommands[kind] + [path]);
    if out.success then Ran(Strip(out.stdout), map[]) else RunFailed(out.stderr)
  }

  function FileResults(path: string, run: Runner): (r: map<string, ToolEntry>)
    ensures r.Keys == FileCommands.Keys
    ensures forall k :: k in r ==> r[k] == FileEntry(k, path, run)
  {
    map k | k in FileCommands :: FileEntry(k, path, run)
  }

  /* ---------------- caching ---------------- */

  /**
   * The frame every `run_*_analysis` shares: an unreadable file raises before
   * the cache is consulted; a fresh cached wrapper is served as is; otherwise
   * the computed result is stored and returned.
   */
  method RunCached(cm: CacheManager, stats: map<string, string>, readable: bool, tool: string, path: string,
                   params: Entries, computed: Value, now: int) returns (r: Result<Value>)
    requires DistinctKeys(params)
    modifies cm
    ensures var k := KeyOf(stats, tool, path, params);
      && (!readable ==> r == Err("Invalid binary file: " + path) && cm.files == old(cm.files))
      && (readable && k in old(cm.files) && now - old(cm.files)[k].mtime <= CacheTtlMicros ==>
            r == Ok(old(cm.files)[k].data.result) && cm.files == old(cm.files))
      && (readable && !(k in old(cm.files) && now - old(cm.files)[k].mtime <= CacheTtlMicros) ==>
            r == Ok(computed) &&
            KeepsNewest(old(cm.files)[k := CacheFile(now, Wrapper(now, tool, path, params, computed))], cm.files))
  {
    if !readable {
      return Err("Invalid binary file: " + path);
    }
    ghost var k := KeyOf(stats, tool, path, params);
    ghost var before := cm.files;
    var cached := cm.Get(stats, tool, path, params, now);
    if cached.Some? {
      return Ok(cached.value.result);
    }
    assert cm.files[k := CacheFile(now, Wrapper(now, tool, path, params, computed))] ==
           before[k := CacheFile(now, Wrapper(now, tool, path, params, computed))];
    cm.Store(stats, tool, path, params, computed, now);
    r := Ok(computed);
  }
}
