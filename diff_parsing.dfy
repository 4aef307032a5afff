/**
 * The parsers of `binary_diff_engine.py`: how the engine reads strings,
 * functions, file types and ELF headers out of the tier-1 tool results,
 * and how it compares two ELF header listings.
 */
module DiffParsing {
  import opened Wrappers
  import opened Text
  import opened Tier1Analysis
  import opened Tier1Runs
  import opened Tier1Summaries

  /* ---------------- strings ---------------- */

  /** A line `_parse_strings_output` keeps once stripped: non-empty, not starting with `[`, longer than three. */
  predicate KeptString(line: string)
  {
    line != [] && line[0] != '[' && |line| > 3
  }

  /**
   * `_parse_strings_output`: the stripped lines that pass the filter, in
   * order. `comprehensive_diff` does not call it: the string comparison
   * reads the strings tier-1 has already extracted (`Tier1Strings`).
   */
  function ParseStringsOutput(output: string): seq<string>
  {
    Filter(StripAll(Lines(output)), KeptString)
  }

  /** A string is kept exactly when it is a line of the output, stripped, that passes the filter. */
  lemma ParseStringsMembers(output: string, x: string)
    ensures x in ParseStringsOutput(output) <==>
              KeptString(x) && exists i :: 0 <= i < |Lines(output)| && x == Strip(Lines(output)[i])
  {
    InStripAll(Lines(output), x);
  }

  /** Every kept string is stripped, non-empty, longer than three and not a `[` heading. */
  lemma ParseStringsShape(output: string)
    ensures |ParseStringsOutput(output)| <= |Lines(output)|
    ensures forall x :: x in ParseStringsOutput(output) ==> KeptString(x) && Trimmed(x)
  {
    forall x | x in ParseStringsOutput(output) ensures KeptString(x) && Trimmed(x) {
      StripAllTrimmed(Lines(output), x);
    }
  }

  /** The `strings` list of one encoding's entry; a failed extraction stores an empty list. */
  function StoredStrings(e: StringsEntry): seq<string>
  {
    if e.Extracted? then e.strings else []
  }

  /**
   * `_parse_tier1_strings_result`: the stored strings of every encoding, in
   * the order the encodings were run.
   */
  function Tier1Strings(results: map<string, StringsEntry>, order: seq<string>): (r: seq<string>)
    ensures forall x :: x in r <==>
              exists j :: 0 <= j < |order| && order[j] in results && x in StoredStrings(results[order[j]])
  {
    if order == [] then []
    else
      var init := order[..|order| - 1];
      var last := order[|order| - 1];
      var acc := Tier1Strings(results, init);
      assert forall j :: 0 <= j < |init| ==> init[j] == order[j];
      acc + (if last in results then StoredStrings(results[last]) else [])
  }

  /** At most a thousand strings per encoding reach the engine. */
  lemma {:induction false} Tier1StringsBounded(results: map<string, StringsEntry>, order: seq<string>)
    requires forall e :: e in results && results[e].Extracted? ==> |results[e].strings| <= MaxStoredStrings
    ensures |Tier1Strings(results, order)| <= MaxStoredStrings * |order|
    decreases |order|
  {
    if order != [] {
      Tier1StringsBounded(results, order[..|order| - 1]);
    }
  }

  /* ---------------- functions ---------------- */

  /** A line that opens a function in `objdump -d` output: it holds `<` and `>:`. */
  predicate IsFunctionHeader(line: string)
  {
    '<' in line && Contains(line, ">:")
  }

  /** A line taken as an instruction: it holds `:` and a digit. */
  predicate IsInstruction(line: string)
  {
    ':' in line && HasDigit(line)
  }

  /** `line.split('<')[1].split('>')[0]`. */
  function FunctionName(line: string): string
    requires '<' in line
  {
    var parts := Split(line, '<');
    SplitFirst(line, '<');
    Split(parts[1], '>')[0]
  }

  /**
   * A function's name is the text after the first `<`, up to the next `<`
   * or `>` or the end of the line.
   */
  lemma FunctionNameSpec(line: string)
    requires '<' in line
    ensures var rest := line[IndexOf(line, '<') + 1..];
            var r := FunctionName(line);
            && |r| <= |rest| && r == rest[..|r|]
            && '<' !in r && '>' !in r
            && (|r| < |rest| ==> rest[|r|] == '<' || rest[|r|] == '>')
  {
    var i := IndexOf(line, '<');
    var rest := line[i + 1..];
    SplitFirst(line, '<');
    SplitFirst(rest, '<');
    var part := rest[..IndexOf(rest, '<')];
    assert Split(line, '<')[1] == part;
    SplitFirst(part, '>');
    var r := FunctionName(line);
    assert r == part[..IndexOf(part, '>')];
    assert r == rest[..|r|];
  }

  /** The parser's variables: the open function, its instructions so far, and the functions saved. */
  datatype ParseState = ParseState(current: Option<string>, instrs: seq<string>, functions: map<string, seq<string>>)

  const Start: ParseState := ParseState(None, [], map[])

  /** `if current_function and current_instructions: functions[current_function] = current_instructions`. */
  function Saved(st: ParseState): map<string, seq<string>>
  {
    if st.current.Some? && st.current.value != [] && st.instrs != [] then st.functions[st.current.value := st.instrs]
    else st.functions
  }

  /** One turn of the loop of `_parse_objdump_functions`, on a line already stripped. */
  function Step(st: ParseState, line: string): ParseState
  {
    if IsFunctionHeader(line) then
      var name := FunctionName(line);
      if name != [] then ParseState(Some(name), [], Saved(st)) else st.(functions := Saved(st))
    else if st.current.Some? && st.current.value != [] && IsInstruction(line) then st.(instrs := st.instrs + [line])
    else st
  }

  function Run(st: ParseState, lines: seq<string>): ParseState
    decreases |lines|
  {
    if lines == [] then st else Run(Step(st, lines[0]), lines[1..])
  }

  /** The functions found in a listing's stripped lines. */
  function FunctionsOf(lines: seq<string>): map<string, seq<string>>
  {
    Saved(Run(Start, lines))
  }

  /** `_parse_objdump_functions`. */
  function ObjdumpFunctions(output: string): map<string, seq<string>>
  {
    FunctionsOf(StripAll(Lines(output)))
  }

  /** `_parse_tier1_objdump_result`: the functions of a successful disassembly, otherwise none. */
  function Tier1Functions(results: map<string, ToolEntry>): map<string, seq<string>>
  {
    if "disassemble" in results && results["disassemble"].Ran? then ObjdumpFunctions(results["disassemble"].output)
    else map[]
  }

  lemma {:induction false} RunAppend(st: ParseState, a: seq<string>, b: seq<string>)
    ensures Run(st, a + b) == Run(Run(st, a), b)
    decreases |a|
  {
    if a == [] {
      assert a + b == b;
    } else {
      var next := Step(st, a[0]);
      assert (a + b)[0] == a[0] && (a + b)[1..] == a[1..] + b;
      assert Run(st, a + b) == Run(next, a[1..] + b);
      assert Run(st, a) == Run(next, a[1..]);
      RunAppend(next, a[1..], b);
    }
  }

  /** A function name holds neither `<` nor `>`, and a saved body is a non-empty list of instruction lines. */
  predicate GoodBody(name: string, body: seq<string>)
  {
    name != [] && '<' !in name && '>' !in name && body != [] &&
    forall j :: 0 <= j < |body| ==> IsInstruction(body[j])
  }

  predicate GoodState(st: ParseState)
  {
    (st.current.Some? ==> '<' !in st.current.value && '>' !in st.current.value) &&
    (forall j :: 0 <= j < |st.instrs| ==> IsInstruction(st.instrs[j])) &&
    (forall n :: n in st.functions ==> GoodBody(n, st.functions[n]))
  }

  lemma SavedGood(st: ParseState)
    requires GoodState(st)
    ensures forall n :: n in Saved(st) ==> GoodBody(n, Saved(st)[n])
  {
  }

  lemma StepGood(st: ParseState, line: string)
    requires GoodState(st)
    ensures GoodState(Step(st, line))
  {
    SavedGood(st);
    if IsFunctionHeader(line) {
      FunctionNameSpec(line);
    }
  }

  lemma {:induction false} RunGood(st: ParseState, lines: seq<string>)
    requires GoodState(st)
    ensures GoodState(Run(st, lines))
    decreases |lines|
  {
    if lines != [] {
      StepGood(st, lines[0]);
      RunGood(Step(st, lines[0]), lines[1..]);
    }
  }

  /**
   * Every function found has a name free of `<` and `>` and a non-empty
   * list of instruction lines.
   */
  lemma FunctionsWellFormed(output: string)
    ensures forall n :: n in ObjdumpFunctions(output) ==> GoodBody(n, ObjdumpFunctions(output)[n])
  {
    RunGood(Start, StripAll(Lines(output)));
    SavedGood(Run(Start, StripAll(Lines(output))));
  }

  /** The instruction lines of a function body. */
  function Instructions(body: seq<string>): (r: seq<string>)
    ensures |r| <= |body|
  {
    if body == [] then []
    else
      InstructionOf(body[0]) + Instructions(body[1..])
  }

  predicate NoHeaders(lines: seq<string>)
  {
    forall line :: line in lines ==> !IsFunctionHeader(line)
  }

  /** What one line adds to a function body: itself, when it is an instruction. */
  function InstructionOf(line: string): seq<string>
  {
    if IsInstruction(line) then [line] else []
  }

  /** Inside a function, a line that is not a header at most adds an instruction. */
  lemma StepInBody(st: ParseState, line: string)
    requires st.current.Some? && st.current.value != [] && !IsFunctionHeader(line)
    ensures Step(st, line) == st.(instrs := st.instrs + InstructionOf(line))
  {
  }

  /** Inside a function, lines without a header only add instructions. */
  lemma {:induction false} RunBody(st: ParseState, body: seq<string>)
    requires st.current.Some? && st.current.value != [] && NoHeaders(body)
    ensures Run(st, body) == st.(instrs := st.instrs + Instructions(body))
    decreases |body|
  {
    if body != [] {
      var next := st.(instrs := st.instrs + InstructionOf(body[0]));
      assert body[0] in body;
      StepInBody(st, body[0]);
      assert Run(st, body) == Run(next, body[1..]);
      assert NoHeaders(body[1..]) by {
        forall x | x in body[1..] ensures x in body {
          var j :| 0 <= j < |body[1..]| && body[1..][j] == x;
          assert body[j + 1] == x;
        }
      }
      RunBody(next, body[1..]);
      assert st.instrs + InstructionOf(body[0]) + Instructions(body[1..]) == st.instrs + Instructions(body);
    } else {
      assert st.instrs + [] == st.instrs;
    }
  }

  /** Before the first function, lines without a header leave the parser where it started. */
  lemma {:induction false} RunPreamble(pre: seq<string>)
    requires NoHeaders(pre)
    ensures Run(Start, pre) == Start
    decreases |pre|
  {
    if pre != [] {
      assert pre[0] in pre;
      assert Step(Start, pre[0]) == Start;
      assert NoHeaders(pre[1..]) by {
        forall x | x in pre[1..] ensures x in pre {
          var j :| 0 <= j < |pre[1..]| && pre[1..][j] == x;
          assert pre[j + 1] == x;
        }
      }
      RunPreamble(pre[1..]);
    }
  }

  /** Lines before the first function header (the file banner, section titles) contribute nothing. */
  lemma PreambleIgnored(pre: seq<string>, rest: seq<string>)
    requires NoHeaders(pre)
    ensures FunctionsOf(pre + rest) == FunctionsOf(rest)
  {
    RunAppend(Start, pre, rest);
    RunPreamble(pre);
  }

  /**
   * The last block of a listing belongs to the function its header names:
   * a function whose body holds instructions maps to exactly those
   * instruction lines, whatever came before (an earlier block of the same
   * name is overwritten).
   */
  lemma LastBlockWins(pre: seq<string>, header: string, body: seq<string>)
    requires IsFunctionHeader(header) && FunctionName(header) != []
    requires NoHeaders(body) && Instructions(body) != []
    ensures var name := FunctionName(header);
            name in FunctionsOf(pre + [header] + body) && FunctionsOf(pre + [header] + body)[name] == Instructions(body)
  {
    var name := FunctionName(header);
    var mid := Run(Start, pre);
    RunAppend(Start, pre + [header], body);
    RunAppend(Start, pre, [header]);
    var entered := Step(mid, header);
    assert Run(mid, [header]) == entered;
    assert entered.current == Some(name) && entered.instrs == [];
    RunBody(entered, body);
    assert [] + Instructions(body) == Instructions(body);
  }

  /* ---------------- file type ---------------- */

  /** `_extract_file_type_from_tier1_result`: the first line of a successful `file` run, otherwise "". */
  function ExtractFileType(results: map<string, ToolEntry>): string
  {
    if "basic" in results && results["basic"].Ran? then Split(results["basic"].output, '\n')[0] else ""
  }

  /**
   * On the results of `run_file_analysis`, the file type is the first line
   * of the stripped output of `file <path>` when it succeeded, and ""
   * otherwise; it never holds a newline.
   */
  lemma FileTypeOfFileResults(path: string, run: Runner)
    ensures var out := run(["file", path]);
            var t := ExtractFileType(FileResults(path, run));
            && '\n' !in t
            && (out.success ==> t == Strip(out.stdout)[..IndexOf(Strip(out.stdout), '\n')])
            && (!out.success ==> t == "")
  {
    var out := run(["file", path]);
    var r := FileResults(path, run);
    assert ["file"] + FileCommands["basic"] + [path] == ["file", path];
    assert r["basic"] == FileEntry("basic", path, run);
    if out.success {
      var so := Strip(out.stdout);
      assert r["basic"] == Ran(so, map[]);
      SplitFirst(so, '\n');
      assert ExtractFileType(r) == Split(so, '\n')[0];
    } else {
      assert r["basic"] == RunFailed(out.stderr);
    }
  }

  /* ---------------- ELF headers ---------------- */

  /** Only the first twenty lines of each listing are compared. */
  const HeaderLines: nat := 20

  /** One line that differs, numbered from 1, with both stripped texts. */
  datatype HeaderDiff = HeaderDiff(line: nat, binary1: string, binary2: string)

  function Min(a: nat, b: nat): nat
  {
    if a <= b then a else b
  }

  /** `d` reports line `d.line` of both listings, where they differ. */
  predicate Reports(s1: seq<string>, s2: seq<string>, d: HeaderDiff)
  {
    0 < d.line <= Min(|s1|, |s2|) && d.binary1 == s1[d.line - 1] && d.binary2 == s2[d.line - 1] &&
    d.binary1 != d.binary2
  }

  /** The differing pairs among the pairs `i..` of `zip(s1, s2)` of stripped lines, in line order. */
  function HeaderDiffsFrom(s1: seq<string>, s2: seq<string>, i: nat): (r: seq<HeaderDiff>)
    ensures forall k :: 0 <= k < |r| ==> i < r[k].line && Reports(s1, s2, r[k])
    ensures forall k, m :: 0 <= k < m < |r| ==> r[k].line < r[m].line
    decreases |s1| - i
  {
    if i >= |s1| || i >= |s2| then []
    else
      var rest := HeaderDiffsFrom(s1, s2, i + 1);
      if s1[i] != s2[i] then [HeaderDiff(i + 1, s1[i], s2[i])] + rest
      else rest
  }

  /** Every pair that differs is reported. */
  lemma {:induction false} HeaderDiffsComplete(s1: seq<string>, s2: seq<string>, i: nat, j: nat)
    requires i <= j < Min(|s1|, |s2|) && s1[j] != s2[j]
    ensures exists k :: 0 <= k < |HeaderDiffsFrom(s1, s2, i)| && HeaderDiffsFrom(s1, s2, i)[k].line == j + 1
    decreases j - i
  {
    var r := HeaderDiffsFrom(s1, s2, i);
    if j == i {
      assert r[0].line == j + 1;
    } else {
      HeaderDiffsComplete(s1, s2, i + 1, j);
      var rest := HeaderDiffsFrom(s1, s2, i + 1);
      var k :| 0 <= k < |rest| && rest[k].line == j + 1;
      if s1[i] != s2[i] {
        assert r[k + 1] == rest[k];
      } else {
        assert r == rest;
      }
    }
  }

  /** The dict `_compare_elf_headers` returns. */
  datatype ElfHeaderDiff = ElfHeaderDiff(differences: seq<HeaderDiff>, sectionsChanged: bool)

  /** `_compare_elf_headers` on two header listings. */
  function CompareElfHeaders(output1: string, output2: string): ElfHeaderDiff
  {
    var d := HeaderDiffsFrom(StrippedHead(Lines(output1)), StrippedHead(Lines(output2)), 0);
    ElfHeaderDiff(d, |d| > 0)
  }

  /** Some pair is reported exactly when some pair differs. */
  lemma SomeDiffIff(s1: seq<string>, s2: seq<string>)
    ensures HeaderDiffsFrom(s1, s2, 0) != [] <==> exists j :: 0 <= j < Min(|s1|, |s2|) && s1[j] != s2[j]
  {
    var d := HeaderDiffsFrom(s1, s2, 0);
    if d != [] {
      assert Reports(s1, s2, d[0]);
      assert s1[d[0].line - 1] != s2[d[0].line - 1];
    }
    if exists j :: 0 <= j < Min(|s1|, |s2|) && s1[j] != s2[j] {
      var j :| 0 <= j < Min(|s1|, |s2|) && s1[j] != s2[j];
      HeaderDiffsComplete(s1, s2, 0, j);
    }
  }

  /** The first twenty lines of a listing, stripped. */
  function StrippedHead(l: seq<string>): (r: seq<string>)
    ensures |r| == Min(HeaderLines, |l|)
    ensures forall j :: 0 <= j < |r| ==> r[j] == Strip(l[j])
  {
    StripAll(Take(l, HeaderLines))
  }

  /** One of the first twenty line pairs differs once stripped. */
  predicate HeadersDiffer(l1: seq<string>, l2: seq<string>)
  {
    var h1 := StrippedHead(l1);
    var h2 := StrippedHead(l2);
    exists j :: 0 <= j < Min(|h1|, |h2|) && h1[j] != h2[j]
  }

  /** Sections are reported changed exactly when the two listings' headers differ. */
  lemma SectionsChangedIff(output1: string, output2: string)
    ensures CompareElfHeaders(output1, output2).sectionsChanged <==> HeadersDiffer(Lines(output1), Lines(output2))
  {
    SomeDiffIff(StrippedHead(Lines(output1)), StrippedHead(Lines(output2)));
  }

  lemma {:induction false} NoDiffsWithItself(l: seq<string>, i: nat)
    ensures HeaderDiffsFrom(l, l, i) == []
    decreases |l| - i
  {
    if i < |l| {
      NoDiffsWithItself(l, i + 1);
    }
  }

  /** A listing compared with itself has no differences. */
  lemma ElfHeadersReflexive(output: string)
    ensures CompareElfHeaders(output, output) == ElfHeaderDiff([], false)
  {
    NoDiffsWithItself(StrippedHead(Lines(output)), 0);
  }

  /* ---------------- metadata ---------------- */

  /**
   * Where `_compare_elf_headers` looks for a listing: `elf.get("output", "")`
   * on the dict `run_readelf_analysis` returns. That dict's keys are
   * `binary_path`, `analysis_type`, `timestamp` and `results` (the listing
   * is nested in `results`), so the lookup always falls back to "".
   */
  function TopLevelOutput(report: map<string, ToolEntry>): string
  {
    ""
  }

  /** The listing where `run_readelf_analysis(path, "headers")` keeps it: `results["headers"]["output"]`. */
  function HeadersOutput(results: map<string, ToolEntry>): string
  {
    if "headers" in results && results["headers"].Ran? then results["headers"].output else ""
  }

  /** The one `differences` entry the metadata diff can add: the two file types. */
  datatype FileTypeChange = FileTypeChange(binary1: string, binary2: string)

  /**
   * The dict `metadata_diff` returns (its `architecture_changed` and
   * `entry_point_changed` are always false), or its error.
   */
  datatype MetadataResult =
    | Metadata(fileTypeChanged: bool, differences: seq<FileTypeChange>, elf: ElfHeaderDiff)
    | MetadataFailed(error: string)

  function MetadataFrom(file1: Result<map<string, ToolEntry>>, file2: Result<map<string, ToolEntry>>,
                        elf1: Result<map<string, ToolEntry>>, elf2: Result<map<string, ToolEntry>>,
                        output1: string, output2: string): MetadataResult
  {
    if file1.Err? then MetadataFailed(file1.msg)
    else if file2.Err? then MetadataFailed(file2.msg)
    else if elf1.Err? then MetadataFailed(elf1.msg)
    else if elf2.Err? then MetadataFailed(elf2.msg)
    else
      var t1 := ExtractFileType(file1.value);
      var t2 := ExtractFileType(file2.value);
      Metadata(t1 != t2, if t1 != t2 then [FileTypeChange(t1, t2)] else [], CompareElfHeaders(output1, output2))
  }

  /**
   * `metadata_diff` as written: the four tier-1 calls (any of which raises
   * for an invalid file), then the file types and the header listings
   * looked up at the top level of the readelf results.
   */
  function MetadataDiffAsWritten(file1: Result<map<string, ToolEntry>>, file2: Result<map<string, ToolEntry>>,
                                 elf1: Result<map<string, ToolEntry>>, elf2: Result<map<string, ToolEntry>>): MetadataResult
  {
    MetadataFrom(file1, file2, elf1, elf2,
                 if elf1.Ok? then TopLevelOutput(elf1.value) else "",
                 if elf2.Ok? then TopLevelOutput(elf2.value) else "")
  }

  /** `metadata_diff` comparing the `headers` listings the readelf runs produced. */
  function MetadataDiff(file1: Result<map<string, ToolEntry>>, file2: Result<map<string, ToolEntry>>,
                        elf1: Result<map<string, ToolEntry>>, elf2: Result<map<string, ToolEntry>>): MetadataResult
  {
    MetadataFrom(file1, file2, elf1, elf2,
                 if elf1.Ok? then HeadersOutput(elf1.value) else "",
                 if elf2.Ok? then HeadersOutput(elf2.value) else "")
  }

  /** As written, no pair of readelf results ever shows a header difference. */
  lemma MetadataAsWrittenNeverSeesHeaders(file1: Result<map<string, ToolEntry>>, file2: Result<map<string, ToolEntry>>,
                                          elf1: Result<map<string, ToolEntry>>, elf2: Result<map<string, ToolEntry>>)
    ensures var m := MetadataDiffAsWritten(file1, file2, elf1, elf2);
            m.Metadata? ==> m.elf == ElfHeaderDiff([], false)
  {
    ElfHeadersReflexive("");
  }

  /** The `Class:` line of a 32-bit and of a 64-bit ELF header listing. */
  const Class32: string := "Class: ELF32"
  const Class64: string := "Class: ELF64"

  /** Two header listings whose only line differs: a 32-bit and a 64-bit ELF class. */
  const Elf32Headers: map<string, ToolEntry> := map["headers" := Ran(Class32, map[])]
  const Elf64Headers: map<string, ToolEntry> := map["headers" := Ran(Class64, map[])]

  /** A one-line listing with no whitespace at its ends is its own stripped head. */
  lemma OneLineHead(s: string)
    requires '\n' !in s && Trimmed(s)
    ensures StrippedHead(Lines(s)) == [s]
  {
    SplitWithoutSep(s, '\n');
  }

  /** Two differing one-line listings differ in line 1. */
  lemma OneLineDiff(a: string, b: string)
    requires a != b
    ensures HeaderDiffsFrom([a], [b], 0) == [HeaderDiff(1, a, b)]
  {
    assert HeaderDiffsFrom([a], [b], 1) == [];
  }

  /** The two `Class:` lines are single, trimmed and different. */
  lemma ClassLines()
    ensures '\n' !in Class32 && Trimmed(Class32) && '\n' !in Class64 && Trimmed(Class64)
    ensures Class32 != Class64
  {
    assert Class32[11] != Class64[11];
  }

  /** Comparing the two listings reports their first line. */
  lemma ClassLinesCompared()
    ensures CompareElfHeaders(Class32, Class64) == ElfHeaderDiff([HeaderDiff(1, Class32, Class64)], true)
  {
    ClassLines();
    OneLineHead(Class32);
    OneLineHead(Class64);
    OneLineDiff(Class32, Class64);
  }

  /**
   * For a 32-bit and a 64-bit binary of the same file type, the metadata
   * diff as written reports no header change, while the corrected one
   * reports line 1.
   */
  lemma ClassChangeMissedAsWritten(file: map<string, ToolEntry>)
    ensures MetadataDiffAsWritten(Ok(file), Ok(file), Ok(Elf32Headers), Ok(Elf64Headers)).elf.sectionsChanged == false
    ensures MetadataDiff(Ok(file), Ok(file), Ok(Elf32Headers), Ok(Elf64Headers)).elf ==
              ElfHeaderDiff([HeaderDiff(1, Class32, Class64)], true)
  {
    ElfHeadersReflexive("");
    assert HeadersOutput(Elf32Headers) == Class32 && HeadersOutput(Elf64Headers) == Class64;
    ClassLinesCompared();
  }

  /**
   * The metadata diff reports a file-type change exactly when the first
   * lines of the two `file` outputs differ, and header changes exactly when
   * one of the first twenty lines of the two `readelf -h` listings differs.
   */
  lemma MetadataDiffSpec(file1: map<string, ToolEntry>, file2: map<string, ToolEntry>,
                         elf1: map<string, ToolEntry>, elf2: map<string, ToolEntry>)
    ensures var m := MetadataDiff(Ok(file1), Ok(file2), Ok(elf1), Ok(elf2));
            var l1 := Lines(HeadersOutput(elf1));
            var l2 := Lines(HeadersOutput(elf2));
            && m.Metadata?
            && (m.fileTypeChanged <==> ExtractFileType(file1) != ExtractFileType(file2))
            && |m.differences| <= 1
            && (m.elf.sectionsChanged <==> HeadersDiffer(l1, l2))
  {
    var o1 := HeadersOutput(elf1);
    var o2 := HeadersOutput(elf2);
    var t1 := ExtractFileType(file1);
    var t2 := ExtractFileType(file2);
    assert MetadataDiff(Ok(file1), Ok(file2), Ok(elf1), Ok(elf2)) ==
           Metadata(t1 != t2, if t1 != t2 then [FileTypeChange(t1, t2)] else [], CompareElfHeaders(o1, o2));
    SectionsChangedIff(o1, o2);
  }

  /** A binary compared with itself shows no metadata change. */
  lemma MetadataDiffReflexive(file: map<string, ToolEntry>, elf: map<string, ToolEntry>)
    ensures MetadataDiff(Ok(file), Ok(file), Ok(elf), Ok(elf)) == Metadata(false, [], ElfHeaderDiff([], false))
  {
    ElfHeadersReflexive(HeadersOutput(elf));
  }

  /** A tier-1 call that raised is reported as the metadata diff's error. */
  lemma MetadataDiffErrors(file1: Result<map<string, ToolEntry>>, file2: Result<map<string, ToolEntry>>,
                           elf1: Result<map<string, ToolEntry>>, elf2: Result<map<string, ToolEntry>>)
    ensures var m := MetadataDiff(file1, file2, elf1, elf2);
            && (m.MetadataFailed? <==> file1.Err? || file2.Err? || elf1.Err? || elf2.Err?)
            && (file1.Err? ==> m == MetadataFailed(file1.msg))
  {
  }
}
