/**
 * The input validators of `security_utils.py`: allow-list and range checks on
 * tool arguments, query sanitising, the dangerous-directory rule of the path
 * check, magic-header detection and the signature scan.
 *
 * Arguments arrive as a JSON-like dict. The file system is a parameter:
 * `resolve` stands for `Path.resolve()` and `fileSizes` maps each resolved
 * path that is a regular file to its size; a path missing from it does not
 * exist, is not a regular file, or cannot be examined.
 */
module Security {
  import opened Wrappers
  import opened Text
  import opened Bytes
  import opened Json

  const MaxFileSize: nat := 100 * 1024 * 1024

  const DangerousPaths: set<string> := {"/etc", "/usr/bin", "/usr/sbin", "/bin", "/sbin", "/boot",
                                        "/proc", "/sys", "/dev", "/root", "/home"}

  datatype FileSystem = FileSystem(resolve: string -> string, fileSizes: map<string, nat>)

  /** A resolved path is a dangerous directory or lies below one. */
  predicate UnderDangerousDir(path: string)
  {
    exists d :: d in DangerousPaths && (StartsWith(path, d + "/") || path == d)
  }

  /** The path rule of `is_safe_path`; the extension is never a reason to reject. */
  predicate IsSafePath(fs: FileSystem, path: string, allowSystemDirs: bool)
  {
    var resolved := fs.resolve(path);
    resolved in fs.fileSizes &&
    fs.fileSizes[resolved] <= MaxFileSize &&
    (allowSystemDirs || !UnderDangerousDir(resolved))
  }

  /**
   * The directory rule matches whole path components: a sibling such as
   * `/etcfoo` is not below `/etc`, while `/etc` itself and `/etc/passwd` are.
   */
  lemma DangerousDirComponents()
    ensures UnderDangerousDir("/etc") && UnderDangerousDir("/etc/passwd")
    ensures !UnderDangerousDir("/etcfoo")
  {
    assert StartsWith("/etc/passwd", "/etc" + "/");
    var s := "/etcfoo";
    forall d | d in DangerousPaths ensures !StartsWith(s, d + "/") && s != d {
      assert |d| in {4, 5, 8, 9};
      if |d| < |s| {
        assert s[|d|] != '/';
        assert (d + "/")[|d|] == '/';
      }
    }
  }

  /** A file that is safe where it is stays safe when system directories are allowed. */
  lemma AllowSystemDirsOnlyWidens(fs: FileSystem, path: string)
    ensures IsSafePath(fs, path, false) ==> IsSafePath(fs, path, true)
    ensures IsSafePath(fs, path, true) && !UnderDangerousDir(fs.resolve(path)) ==> IsSafePath(fs, path, false)
  {
  }

  /** `sanitize_path`: the resolved path when it passes the default rule. */
  function SanitizePath(fs: FileSystem, path: string): (r: Option<string>)
    ensures r.Some? ==> r.value == fs.resolve(path)
    ensures r.Some? ==> fs.resolve(r.value) in fs.fileSizes && fs.fileSizes[fs.resolve(r.value)] <= MaxFileSize
    ensures r.Some? ==> !UnderDangerousDir(fs.resolve(r.value))
    ensures r.None? <==> !IsSafePath(fs, fs.resolve(path), false)
  {
    var resolved := fs.resolve(path);
    if IsSafePath(fs, resolved, false) then Some(resolved) else None
  }

  /**
   * `is_executable_file` as written: the Mach-O and Java literals are
   * `b'\xfeedface'`, `b'\xfeedfacf'` and `b'\xcafebabe'`, that is one escaped
   * byte followed by the ASCII codes of the letters (`e` is 0x65, `d` 0x64,
   * `f` 0x66, `a` 0x61, `c` 0x63, `b` 0x62), not the four-byte magics the
   * comments name.
   */
  const WrittenMagics: seq<seq<byte>> := [
    [0x7f, 0x45, 0x4c, 0x46],
    [0x4d, 0x5a],
    [0xfe, 0x65, 0x64, 0x66, 0x61, 0x63, 0x65],
    [0xfe, 0x65, 0x64, 0x66, 0x61, 0x63, 0x66],
    [0xca, 0x66, 0x65, 0x62, 0x61, 0x62, 0x65]]

  /** The magics the source names: ELF, MZ, Mach-O 32/64 (FEEDFACE, FEEDFACF) and CAFEBABE. */
  const IntendedMagics: seq<seq<byte>> := [
    [0x7f, 0x45, 0x4c, 0x46],
    [0x4d, 0x5a],
    [0xfe, 0xed, 0xfa, 0xce],
    [0xfe, 0xed, 0xfa, 0xcf],
    [0xca, 0xfe, 0xba, 0xbe]]

  /** `header.startswith(m)` for some listed magic `m`, on the first 16 bytes. */
  predicate HasMagic(content: seq<byte>, magics: seq<seq<byte>>)
  {
    var header := if |content| <= 16 then content else content[..16];
    exists k :: 0 <= k < |magics| && StartsWith(header, magics[k])
  }

  /** An unreadable file (`None`) is not executable. */
  predicate IsExecutableFileAsWritten(content: Option<seq<byte>>)
  {
    content.Some? && HasMagic(content.value, WrittenMagics)
  }

  predicate IsExecutableFile(content: Option<seq<byte>>)
  {
    content.Some? && HasMagic(content.value, IntendedMagics)
  }

  /** Every listed magic is at most 16 bytes long, so reading only the header loses nothing. */
  lemma {:induction false} MagicOnHeaderIsMagicOnFile(content: seq<byte>, magics: seq<seq<byte>>)
    requires forall k :: 0 <= k < |magics| ==> |magics[k]| <= 16
    ensures HasMagic(content, magics) <==> exists k :: 0 <= k < |magics| && StartsWith(content, magics[k])
  {
    if |content| > 16 {
      var header := content[..16];
      forall k | 0 <= k < |magics|
        ensures StartsWith(header, magics[k]) <==> StartsWith(content, magics[k])
      {
        assert |magics[k]| <= 16;
        assert header[..|magics[k]|] == content[..|magics[k]|];
      }
    }
  }

  /** A classic 32-bit Mach-O header: FE ED FA CE followed by anything. */
  lemma MachOMagicMissed(rest: seq<byte>)
    ensures !IsExecutableFileAsWritten(Some([0xfe, 0xed, 0xfa, 0xce] + rest))
    ensures IsExecutableFile(Some([0xfe, 0xed, 0xfa, 0xce] + rest))
  {
    var c: seq<byte> := [0xfe, 0xed, 0xfa, 0xce] + rest;
    var header := if |c| <= 16 then c else c[..16];
    assert header[..4] == [0xfe, 0xed, 0xfa, 0xce];
    assert StartsWith(header, IntendedMagics[2]);
    forall k | 0 <= k < |WrittenMagics| ensures !StartsWith(header, WrittenMagics[k]) {
      assert |WrittenMagics[k]| >= 2;
      if k == 0 || k == 1 {
        assert header[0] != WrittenMagics[k][0];
      } else {
        assert header[1] != WrittenMagics[k][1];
      }
    }
  }

  /** On the ELF and PE/DOS signatures the two versions agree. */
  lemma ElfAndPeAgree(content: seq<byte>)
    requires StartsWith(content, [0x7f, 0x45, 0x4c, 0x46]) || StartsWith(content, [0x4d, 0x5a])
    ensures IsExecutableFileAsWritten(Some(content)) && IsExecutableFile(Some(content))
  {
    var header := if |content| <= 16 then content else content[..16];
    if StartsWith(content, [0x7f, 0x45, 0x4c, 0x46]) {
      HeaderStartsWith(content, [0x7f, 0x45, 0x4c, 0x46]);
      assert WrittenMagics[0] == [0x7f, 0x45, 0x4c, 0x46] == IntendedMagics[0];
      assert StartsWith(header, WrittenMagics[0]) && StartsWith(header, IntendedMagics[0]);
    } else {
      HeaderStartsWith(content, [0x4d, 0x5a]);
      assert WrittenMagics[1] == [0x4d, 0x5a] == IntendedMagics[1];
      assert StartsWith(header, WrittenMagics[1]) && StartsWith(header, IntendedMagics[1]);
    }
  }

  /** A magic of at most 16 bytes that starts the file also starts its 16-byte header. */
  lemma HeaderStartsWith(content: seq<byte>, magic: seq<byte>)
    requires |magic| <= 16 && StartsWith(content, magic)
    ensures StartsWith(if |content| <= 16 then content else content[..16], magic)
  {
    if |content| > 16 {
      assert content[..16][..|magic|] == content[..|magic|];
    }
  }

  /** The strings `scan_for_malware_signatures` looks for, in the order it reports them. */
  const SuspiciousStrings: seq<string> := [
    "eval(", "exec(", "system(", "shell_exec", "CreateProcess", "WinExec", "VirtualAlloc",
    "GetProcAddress", "LoadLibrary", "keylogger", "backdoor", "trojan"]

  const ScanWindow: nat := 1024 * 1024

  function ScanFrom(window: seq<byte>, patterns: seq<string>): (r: seq<string>)
    ensures |r| <= |patterns|
    ensures forall i :: 0 <= i < |r| ==> r[i] in patterns && Contains(window, Ascii(r[i]))
    ensures forall k :: 0 <= k < |patterns| && Contains(window, Ascii(patterns[k])) ==> patterns[k] in r
  {
    if patterns == [] then []
    else
      var rest := ScanFrom(window, patterns[1..]);
      assert forall k :: 1 <= k < |patterns| ==> patterns[k] == patterns[1..][k - 1];
      if Contains(window, Ascii(patterns[0])) then [patterns[0]] + rest else rest
  }

  /**
   * `scan_for_malware_signatures`: the listed strings found in the first
   * megabyte, in list order; an unreadable file yields nothing.
   */
  function ScanForMalwareSignatures(content: Option<seq<byte>>): (r: seq<string>)
    ensures content.None? ==> r == []
    ensures |r| <= |SuspiciousStrings|
    ensures forall i :: 0 <= i < |r| ==> r[i] in SuspiciousStrings
    ensures content.Some? ==>
              var window := if |content.value| <= ScanWindow then content.value else content.value[..ScanWindow];
              forall k :: 0 <= k < |SuspiciousStrings| ==>
                (SuspiciousStrings[k] in r <==> Contains(window, Ascii(SuspiciousStrings[k])))
  {
    match content
    case None => []
    case Some(c) =>
      var window := if |c| <= ScanWindow then c else c[..ScanWindow];
      ScanFrom(window, SuspiciousStrings)
  }

  /** Scanning a list in two parts reports the first part's finds, then the second's: list order is kept. */
  lemma {:induction false} ScanFromAppend(window: seq<byte>, ps: seq<string>, qs: seq<string>)
    ensures ScanFrom(window, ps + qs) == ScanFrom(window, ps) + ScanFrom(window, qs)
  {
    if ps != [] {
      assert (ps + qs)[0] == ps[0];
      assert (ps + qs)[1..] == ps[1..] + qs;
      ScanFromAppend(window, ps[1..], qs);
    } else {
      assert ps + qs == qs;
    }
  }

  /** A pattern is reported as often as it is listed when its bytes occur, and never otherwise. */
  lemma {:induction false} ScanFromCount(window: seq<byte>, patterns: seq<string>, p: string)
    ensures multiset(ScanFrom(window, patterns))[p] ==
              if Contains(window, Ascii(p)) then multiset(patterns)[p] else 0
  {
    if patterns != [] {
      var head, tail := patterns[0], patterns[1..];
      var rest := ScanFrom(window, tail);
      ScanFromCount(window, tail, p);
      assert patterns == [head] + tail;
      assert multiset(patterns)[p] == multiset([head])[p] + multiset(tail)[p];
      if Contains(window, Ascii(head)) {
        assert ScanFrom(window, patterns) == [head] + rest;
        assert multiset([head] + rest)[p] == multiset([head])[p] + multiset(rest)[p];
      } else {
        assert ScanFrom(window, patterns) == rest;
      }
    }
  }

  /** No suspicious string is listed twice, so each one found is reported exactly once. */
  lemma ScanReportsOnce(content: Option<seq<byte>>, p: string)
    ensures multiset(ScanForMalwareSignatures(content))[p] <= 1
  {
    if content.Some? {
      var c := content.value;
      var window := if |c| <= ScanWindow then c else c[..ScanWindow];
      assert ScanForMalwareSignatures(content) == ScanFrom(window, SuspiciousStrings);
      ScanWindowOnce(window, p);
    }
  }

  /** Scanning any window for the suspicious strings reports each at most once. */
  lemma ScanWindowOnce(window: seq<byte>, p: string)
    ensures multiset(ScanFrom(window, SuspiciousStrings))[p] <= 1
  {
    ScanFromCount(window, SuspiciousStrings, p);
    SuspiciousStringsDistinct();
    DistinctCount(SuspiciousStrings, p);
  }

  /** The suspicious strings differ pairwise. */
  lemma SuspiciousStringsDistinct()
    ensures forall i, j :: 0 <= i < j < |SuspiciousStrings| ==> SuspiciousStrings[i] != SuspiciousStrings[j]
  {
    forall i, j | 0 <= i < j < |SuspiciousStrings|
      ensures SuspiciousStrings[i] != SuspiciousStrings[j]
    {
      var a, b := SuspiciousStrings[i], SuspiciousStrings[j];
      assert |a| != |b| || a[0] != b[0] || a[1] != b[1] || a[2] != b[2];
    }
  }

  /** In a list without repeats every element occurs at most once. */
  lemma {:induction false} DistinctCount(xs: seq<string>, x: string)
    requires forall i, j :: 0 <= i < j < |xs| ==> xs[i] != xs[j]
    ensures multiset(xs)[x] <= 1
  {
    if xs != [] {
      DistinctCount(xs[1..], x);
      assert xs == [xs[0]] + xs[1..];
      assert multiset(xs) == multiset([xs[0]]) + multiset(xs[1..]);
      if xs[0] == x {
        assert x !in xs[1..];
      }
    }
  }

  // Allow-lists of `InputValidator` and the argument validators.

  const ValidDepths: seq<string> := ["quick", "standard", "deep", "exploit_focused"]
  const ValidArchitectures: seq<string> := ["arm", "mips", "x86", "x64", "riscv", "auto_detect"]
  const ValidPlatforms: seq<string> := ["linux_x64", "linux_x86", "windows_x64", "windows_x86", "arm64", "arm32"]
  const ValidFocusAreas: seq<string> := [
    "vulnerabilities", "crypto", "network", "obfuscation", "malware", "exploitation",
    "persistence", "evasion", "algorithms", "api_calls", "strings", "imports"]
  const ValidSpecializations: seq<string> := [
    "binary_exploitation", "malware_analysis", "firmware_hacking", "crypto_analysis",
    "reverse_engineering", "vulnerability_research"]

  /** `value in allowed` for a list of strings: only a string can be equal to one. */
  predicate OneOf(v: Value, allowed: seq<string>)
  {
    v.Str? && v.s in allowed
  }

  /** `validate_analysis_depth`, `validate_architecture`, `validate_platform`. */
  predicate ValidateAnalysisDepth(v: Value) { OneOf(v, ValidDepths) }
  predicate ValidateArchitecture(v: Value) { OneOf(v, ValidArchitectures) }
  predicate ValidatePlatform(v: Value) { OneOf(v, ValidPlatforms) }

  const MaxQueryLength: nat := 4000

  /** Every whitespace character is a plain space, and no two are adjacent. */
  predicate SingleSpaced(s: string)
  {
    (forall i :: 0 <= i < |s| && IsSpace(s[i]) ==> s[i] == ' ') &&
    (forall i :: 0 <= i < |s| - 1 ==> !(IsSpace(s[i]) && IsSpace(s[i + 1])))
  }

  /** The length limit of `sanitize_query`. */
  function Truncate(c: string): (r: string)
    ensures |c| <= MaxQueryLength ==> r == c
    ensures |c| > MaxQueryLength ==> |r| == MaxQueryLength + 3 && r[..MaxQueryLength] == c[..MaxQueryLength] &&
                                     r[MaxQueryLength..] == "..."
  {
    if |c| > MaxQueryLength then c[..MaxQueryLength] + "..." else c
  }

  /**
   * `sanitize_query`: a falsy or non-string query gives the empty string;
   * otherwise the ends are trimmed and each whitespace run becomes one space,
   * and a result over 4000 characters keeps its first 4000 followed by "...".
   */
  function SanitizeQuery(q: Value): (r: string)
    ensures !(q.Str? && q.s != []) ==> r == []
    ensures |r| <= MaxQueryLength + 3
    ensures |r| > MaxQueryLength ==> r[MaxQueryLength..] == "..."
  {
    if !q.Str? || q.s == [] then [] else Truncate(CollapseSpaces(Strip(q.s)))
  }

  lemma TruncateKeepsShape(c: string)
    requires SingleSpaced(c) && Trimmed(c)
    ensures SingleSpaced(Truncate(c)) && Trimmed(Truncate(c))
    ensures Truncate(c) == [] <==> c == []
  {
    if |c| > MaxQueryLength {
      var r := Truncate(c);
      assert !IsSpace('.');
      forall i | 0 <= i < |r| ensures r[i] == (if i < MaxQueryLength then c[i] else '.') {
        if i < MaxQueryLength { assert r[i] == r[..MaxQueryLength][i]; }
        else { assert r[i] == r[MaxQueryLength..][i - MaxQueryLength]; }
      }
    }
  }

  /** Collapsing a trimmed string leaves it trimmed and single-spaced, and empty only when it was. */
  lemma CollapseKeepsShape(t: string)
    requires Trimmed(t)
    ensures SingleSpaced(CollapseSpaces(t)) && Trimmed(CollapseSpaces(t))
    ensures CollapseSpaces(t) == [] <==> t == []
  {
  }

  /**
   * The shape of a sanitised query: it is empty exactly when the input is
   * not a string or is blank, has no whitespace at its ends, and its only
   * whitespace is single spaces.
   */
  lemma SanitizeQueryShape(q: Value)
    ensures SanitizeQuery(q) == [] <==> !q.Str? || IsBlank(q.s)
    ensures SingleSpaced(SanitizeQuery(q)) && Trimmed(SanitizeQuery(q))
  {
    if q.Str? && q.s != [] {
      var t := Strip(q.s);
      assert Trimmed(t);
      CollapseKeepsShape(t);
      TruncateKeepsShape(CollapseSpaces(t));
    } else if q.Str? {
      assert Strip(q.s) == [];
    }
  }

  lemma SingleSpacedTail(s: string)
    requires s != [] && SingleSpaced(s)
    ensures SingleSpaced(s[1..])
    ensures IsSpace(s[0]) ==> s[0] == ' ' && TrimStart(s) == s[1..]
  {
    var tail := s[1..];
    forall i | 0 <= i < |tail| ensures tail[i] == s[i + 1] { }
    if IsSpace(s[0]) {
      assert tail != [] ==> !IsSpace(tail[0]);
    }
  }

  /** Collapsing leaves a string alone when its only whitespace is single spaces. */
  lemma {:induction false} CollapseFixpoint(s: string)
    requires SingleSpaced(s)
    ensures CollapseSpaces(s) == s
    decreases |s|
  {
    if s != [] {
      SingleSpacedTail(s);
      CollapseFixpoint(s[1..]);
      if IsSpace(s[0]) {
        assert CollapseSpaces(s) == [' '] + CollapseSpaces(TrimStart(s));
      } else {
        assert CollapseSpaces(s) == [s[0]] + CollapseSpaces(s[1..]);
      }
      assert s == [s[0]] + s[1..];
    }
  }

  /** A string already cut to the limit and marked with `...` is not cut again. */
  lemma TruncateFixpoint(r: string)
    requires |r| <= MaxQueryLength + 3
    requires |r| > MaxQueryLength ==> r[MaxQueryLength..] == "..."
    ensures Truncate(r) == r
  {
    if |r| > MaxQueryLength {
      assert r == r[..MaxQueryLength] + r[MaxQueryLength..];
    }
  }

  /** Sanitising is idempotent: a sanitised query passes through unchanged. */
  lemma SanitizeQueryIdempotent(q: Value)
    ensures SanitizeQuery(Str(SanitizeQuery(q))) == SanitizeQuery(q)
  {
    var r := SanitizeQuery(q);
    SanitizeQueryShape(q);
    if r != [] {
      SanitizedFixpoint(r);
    }
  }

  /** A non-empty string with the shape `sanitize_query` returns is sanitised to itself. */
  lemma SanitizedFixpoint(r: string)
    requires r != [] && SingleSpaced(r) && Trimmed(r)
    requires |r| <= MaxQueryLength + 3 && (|r| > MaxQueryLength ==> r[MaxQueryLength..] == "...")
    ensures SanitizeQuery(Str(r)) == r
  {
    CollapseFixpoint(r);
    TruncateFixpoint(r);
  }

  function FilterFocus(items: seq<Value>): (r: seq<string>)
    ensures |r| <= |items|
    ensures forall i :: 0 <= i < |r| ==> r[i] in ValidFocusAreas && Str(r[i]) in items
    ensures forall i :: 0 <= i < |items| && OneOf(items[i], ValidFocusAreas) ==> items[i].s in r
  {
    if items == [] then []
    else
      var rest := FilterFocus(items[1..]);
      assert forall i :: 1 <= i < |items| ==> items[i] == items[1..][i - 1];
      if OneOf(items[0], ValidFocusAreas) then [items[0].s] + rest else rest
  }

  /** Filtering a list in two parts keeps the first part's areas, then the second's: input order is kept. */
  lemma {:induction false} FilterFocusAppend(xs: seq<Value>, ys: seq<Value>)
    ensures FilterFocus(xs + ys) == FilterFocus(xs) + FilterFocus(ys)
  {
    if xs != [] {
      assert (xs + ys)[0] == xs[0];
      assert (xs + ys)[1..] == xs[1..] + ys;
      FilterFocusAppend(xs[1..], ys);
    } else {
      assert xs + ys == ys;
    }
  }

  /** An allow-listed area is kept as often as it is given, repeats included; any other string never. */
  lemma {:induction false} FilterFocusCount(items: seq<Value>, area: string)
    ensures multiset(FilterFocus(items))[area] ==
              if area in ValidFocusAreas then multiset(items)[Str(area)] else 0
  {
    if items != [] {
      var head, tail := items[0], items[1..];
      var rest := FilterFocus(tail);
      FilterFocusCount(tail, area);
      assert items == [head] + tail;
      assert multiset(items)[Str(area)] == multiset([head])[Str(area)] + multiset(tail)[Str(area)];
      if OneOf(head, ValidFocusAreas) {
        assert FilterFocus(items) == [head.s] + rest;
        assert multiset([head.s] + rest)[area] == multiset([head.s])[area] + multiset(rest)[area];
      } else {
        assert FilterFocus(items) == rest;
      }
    }
  }

  /** `validate_focus_areas`: the allow-listed entries in order; [] for an empty or non-list value. */
  function ValidateFocusAreas(areas: Value): (r: seq<string>)
    ensures !areas.List? ==> r == []
    ensures forall i :: 0 <= i < |r| ==> r[i] in ValidFocusAreas && areas.List? && Str(r[i]) in areas.items
    ensures areas.List? ==> forall i :: 0 <= i < |areas.items| && OneOf(areas.items[i], ValidFocusAreas) ==> areas.items[i].s in r
    ensures areas.List? ==> r == FilterFocus(areas.items)
  {
    if areas.List? && areas.items != [] then FilterFocus(areas.items) else []
  }

  function AsValues(ss: seq<string>): (r: seq<Value>)
    ensures |r| == |ss| && forall i :: 0 <= i < |ss| ==> r[i] == Str(ss[i])
  {
    if ss == [] then [] else [Str(ss[0])] + AsValues(ss[1..])
  }

  /** Filtering keeps an already allow-listed list as it is: nothing is reordered or dropped. */
  lemma {:induction false} FocusFilterKeepsValid(ss: seq<string>)
    requires forall i :: 0 <= i < |ss| ==> ss[i] in ValidFocusAreas
    ensures FilterFocus(AsValues(ss)) == ss
  {
    if ss != [] {
      var vs := AsValues(ss);
      assert vs[1..] == AsValues(ss[1..]);
      assert OneOf(vs[0], ValidFocusAreas) && vs[0].s == ss[0];
      FocusFilterKeepsValid(ss[1..]);
      assert FilterFocus(vs) == [ss[0]] + FilterFocus(vs[1..]);
      assert ss == [ss[0]] + ss[1..];
    }
  }

  type Args = map<string, Value>

  /** The required, sanitisable `binary_path` shared by the binary validators. */
  function RequireBinaryPath(fs: FileSystem, args: Args): (r: Result<string>)
    ensures r.Ok? <==> "binary_path" in args && args["binary_path"].Str? &&
                       SanitizePath(fs, args["binary_path"].s).Some?
    ensures r.Ok? ==> r.value == fs.resolve(args["binary_path"].s)
  {
    if "binary_path" !in args then Err("binary_path is required")
    else
      var v := args["binary_path"];
      if !v.Str? then Err("Invalid binary path")
      else match SanitizePath(fs, v.s)
        case None => Err("Invalid binary path")
        case Some(p) => Ok(p)
  }

  /** `validate_binary_analysis_args`. */
  function ValidateBinaryAnalysisArgs(fs: FileSystem, args: Args): (r: Result<Args>)
    ensures r.Ok? <==> RequireBinaryPath(fs, args).Ok? &&
                       ("analysis_depth" in args ==> ValidateAnalysisDepth(args["analysis_depth"]))
    ensures r.Ok? ==> r.value.Keys <= {"binary_path", "analysis_depth", "focus_areas"}
    ensures r.Ok? ==> "binary_path" in r.value && r.value["binary_path"] == Str(fs.resolve(args["binary_path"].s))
    ensures r.Ok? ==> ("focus_areas" in r.value <==> "focus_areas" in args)
    ensures r.Ok? && "focus_areas" in args ==> r.value["focus_areas"] == List(AsValues(ValidateFocusAreas(args["focus_areas"])))
    ensures r.Ok? ==> ("analysis_depth" in r.value <==> "analysis_depth" in args)
    ensures r.Ok? && "analysis_depth" in args ==> r.value["analysis_depth"] == args["analysis_depth"]
  {
    match RequireBinaryPath(fs, args)
    case Err(e) => Err(e)
    case Ok(p) =>
      if "analysis_depth" in args && !ValidateAnalysisDepth(args["analysis_depth"]) then Err("Invalid analysis depth")
      else
        var v1 := map["binary_path" := Str(p)];
        var v2 := if "analysis_depth" in args then v1["analysis_depth" := args["analysis_depth"]] else v1;
        var v3 := if "focus_areas" in args then v2["focus_areas" := List(AsValues(ValidateFocusAreas(args["focus_areas"])))] else v2;
        Ok(v3)
  }

  /** `validate_gpt5_query_args`. */
  function ValidateGpt5QueryArgs(args: Args): (r: Result<Args>)
    ensures r.Ok? <==> "query" in args && SanitizeQuery(args["query"]) != [] &&
                       ("specialization" in args ==> OneOf(args["specialization"], ValidSpecializations))
    ensures r.Ok? ==> r.value.Keys <= {"query", "context", "specialization"}
    ensures r.Ok? ==> "preferred_model" !in r.value
    ensures r.Ok? ==> "query" in r.value && r.value["query"].Str? && r.value["query"].s != [] &&
                      |r.value["query"].s| <= MaxQueryLength + 3
    ensures r.Ok? ==> r.value["query"] == Str(SanitizeQuery(args["query"]))
    ensures r.Ok? ==> ("context" in r.value <==> "context" in args)
    ensures r.Ok? && "context" in args ==> r.value["context"] == Str(SanitizeQuery(args["context"]))
    ensures r.Ok? ==> ("specialization" in r.value <==> "specialization" in args)
    ensures r.Ok? && "specialization" in args ==> r.value["specialization"] == args["specialization"]
  {
    if "query" !in args then Err("query is required")
    else
      var q := SanitizeQuery(args["query"]);
      if q == [] then Err("Query cannot be empty")
      else if "specialization" in args && !OneOf(args["specialization"], ValidSpecializations) then Err("Invalid specialization")
      else
        Ok(Gpt5Fields(q, args))
  }

  /** The dict `validate_gpt5_query_args` returns for an accepted sanitised query `q`. */
  function Gpt5Fields(q: string, args: Args): (r: Args)
    ensures r.Keys <= {"query", "context", "specialization"}
    ensures "preferred_model" !in r
    ensures "query" in r && r["query"] == Str(q)
    ensures "context" in r <==> "context" in args
    ensures "context" in args ==> r["context"] == Str(SanitizeQuery(args["context"]))
    ensures "specialization" in r <==> "specialization" in args
    ensures "specialization" in args ==> r["specialization"] == args["specialization"]
  {
    var v1: Args := if "context" in args then map["context" := Str(SanitizeQuery(args["context"]))] else map[];
    var v2 := if "specialization" in args then v1["specialization" := args["specialization"]] else v1;
    v2["query" := Str(q)]
  }

  /** `isinstance(v, int)`: Python's `bool` is an `int` too. */
  predicate IsInt(v: Value)
  {
    v.Int? || v.Bool?
  }

  function IntOf(v: Value): int
    requires IsInt(v)
  {
    if v.Int? then v.i else if v.b then 1 else 0
  }

  predicate IntBetween(v: Value, lo: int, hi: int)
  {
    IsInt(v) && lo <= IntOf(v) <= hi
  }

  /** `args.get(name, default)`. */
  function ArgOr(args: Args, name: string, default: Value): Value
  {
    if name in args then args[name] else default
  }

  const MaxHexdumpLength: nat := 1024 * 1024

  /** The tool-specific part of `validate_tier1_binary_args`. */
  function ToolArgs(args: Args, tool: string, validated: Args): (r: Result<Args>)
    ensures r.Ok? ==> validated.Keys <= r.value.Keys
  {
    if tool == "strings" then
      var minLength := ArgOr(args, "min_length", Int(4));
      var encoding := ArgOr(args, "encoding", Str("all"));
      if !IntBetween(minLength, 1, 100) then Err("Invalid min_length (must be 1-100)")
      else if !OneOf(encoding, StringEncodings) then Err("Invalid encoding")
      else Ok(validated["min_length" := minLength]["encoding" := encoding])
    else if tool == "objdump" then
      var analysisType := ArgOr(args, "analysis_type", Str("all"));
      var architecture := ArgOr(args, "architecture", Str(""));
      if !OneOf(analysisType, ObjdumpTypes) then
        Err("Invalid analysis_type")
      else if Truthy(architecture) && !OneOf(architecture, ObjdumpArchitectures) then
        Err("Invalid architecture")
      else if Truthy(architecture) then Ok(validated["analysis_type" := analysisType]["architecture" := architecture])
      else Ok(validated["analysis_type" := analysisType])
    else if tool == "readelf" then
      var analysisType := ArgOr(args, "analysis_type", Str("all"));
      if !OneOf(analysisType, ReadelfTypes) then
        Err("Invalid analysis_type")
      else Ok(validated["analysis_type" := analysisType])
    else if tool == "hexdump" then
      var offset := ArgOr(args, "offset", Int(0));
      var length := ArgOr(args, "length", Int(512));
      var format := ArgOr(args, "format", Str("canonical"));
      if !(IsInt(offset) && IntOf(offset) >= 0) then Err("Invalid offset (must be >= 0)")
      else if !IntBetween(length, 1, MaxHexdumpLength) then Err("Invalid length (must be 1-1048576)")
      else if !OneOf(format, HexdumpFormats) then Err("Invalid format")
      else Ok(validated["offset" := offset]["length" := length]["format" := format])
    else Ok(validated)
  }

  /** `validate_tier1_binary_args`. */
  function ValidateTier1BinaryArgs(fs: FileSystem, args: Args, tool: string): (r: Result<Args>)
    ensures RequireBinaryPath(fs, args).Err? ==> r.Err?
    ensures r.Ok? ==> "binary_path" in r.value && r.value["binary_path"] == Str(fs.resolve(args["binary_path"].s))
    ensures r.Ok? ==> "output_format" in r.value && OneOf(r.value["output_format"], ["text", "json"])
    ensures r.Ok? ==> "ai_analysis" in r.value && r.value["ai_analysis"].Bool?
    ensures "output_format" in args && !OneOf(args["output_format"], ["text", "json"]) ==> r.Err?
    ensures "ai_analysis" in args && !args["ai_analysis"].Bool? ==> r.Err?
  {
    match RequireBinaryPath(fs, args)
    case Err(e) => Err(e)
    case Ok(p) =>
      match ToolArgs(args, tool, map["binary_path" := Str(p)])
      case Err(e) => Err(e)
      case Ok(validated) =>
        var outputFormat := ArgOr(args, "output_format", Str("text"));
        var aiAnalysis := ArgOr(args, "ai_analysis", Bool(true));
        if !OneOf(outputFormat, ["text", "json"]) then Err("Invalid output_format")
        else if !aiAnalysis.Bool? then Err("Invalid ai_analysis (must be boolean)")
        else Ok(validated["output_format" := outputFormat]["ai_analysis" := aiAnalysis])
  }

  /** Every tool-specific argument `tool` inspects, or the default it takes in its place, passes its check. */
  predicate ToolArgsPass(args: Args, tool: string)
  {
    (tool == "strings" ==>
       IntBetween(ArgOr(args, "min_length", Int(4)), 1, 100) && OneOf(ArgOr(args, "encoding", Str("all")), StringEncodings)) &&
    (tool == "objdump" ==>
       OneOf(ArgOr(args, "analysis_type", Str("all")), ObjdumpTypes) &&
       (Truthy(ArgOr(args, "architecture", Str(""))) ==> OneOf(ArgOr(args, "architecture", Str("")), ObjdumpArchitectures))) &&
    (tool == "readelf" ==> OneOf(ArgOr(args, "analysis_type", Str("all")), ReadelfTypes)) &&
    (tool == "hexdump" ==>
       IsInt(ArgOr(args, "offset", Int(0))) && IntOf(ArgOr(args, "offset", Int(0))) >= 0 &&
       IntBetween(ArgOr(args, "length", Int(512)), 1, MaxHexdumpLength) &&
       OneOf(ArgOr(args, "format", Str("canonical")), HexdumpFormats))
  }

  /**
   * Every argument `validate_tier1_binary_args` inspects for `tool`, or the
   * default it takes in its place, passes its own check.
   */
  predicate Tier1ArgsPass(fs: FileSystem, args: Args, tool: string)
  {
    RequireBinaryPath(fs, args).Ok? && ToolArgsPass(args, tool) &&
    OneOf(ArgOr(args, "output_format", Str("text")), ["text", "json"]) &&
    ArgOr(args, "ai_analysis", Bool(true)).Bool?
  }

  /** The names the validated dict holds for `tool`, besides the path and the two common flags. */
  function ToolKeys(args: Args, tool: string): set<string>
  {
    if tool == "strings" then {"min_length", "encoding"}
    else if tool == "objdump" then
      if Truthy(ArgOr(args, "architecture", Str(""))) then {"analysis_type", "architecture"} else {"analysis_type"}
    else if tool == "readelf" then {"analysis_type"}
    else if tool == "hexdump" then {"offset", "length", "format"}
    else {}
  }

  /** The default each inspected name takes when the caller leaves it out. */
  const Tier1Defaults: map<string, Value> :=
    map["min_length" := Int(4), "encoding" := Str("all"), "analysis_type" := Str("all"), "architecture" := Str(""),
        "offset" := Int(0), "length" := Int(512), "format" := Str("canonical"),
        "output_format" := Str("text"), "ai_analysis" := Bool(true)]

  /** `validated` holds, besides `base`, exactly the names `keys`, each with the argument given or its default. */
  ghost predicate HoldsArgs(validated: Args, base: Args, keys: set<string>, args: Args)
  {
    validated.Keys == base.Keys + keys &&
    (forall k :: k in base ==> k in validated && validated[k] == base[k]) &&
    (forall k :: k in keys ==> k in Tier1Defaults && k in validated && validated[k] == ArgOr(args, k, Tier1Defaults[k]))
  }

  /** The tool-specific checks accept exactly when every inspected argument passes, and record each one. */
  lemma ToolArgsExactly(args: Args, tool: string, base: Args)
    requires base.Keys == {"binary_path"}
    ensures ToolArgs(args, tool, base).Ok? <==> ToolArgsPass(args, tool)
    ensures ToolArgs(args, tool, base).Ok? ==> HoldsArgs(ToolArgs(args, tool, base).value, base, ToolKeys(args, tool), args)
  {
    if tool == "strings" {
    } else if tool == "objdump" {
    } else if tool == "readelf" {
    } else if tool == "hexdump" {
    }
  }

  /**
   * `validate_tier1_binary_args` accepts exactly when every inspected
   * argument passes, and then the validated dict holds the resolved path and,
   * under each inspected name, the argument given or its default.
   */
  lemma Tier1AcceptsExactly(fs: FileSystem, args: Args, tool: string)
    ensures ValidateTier1BinaryArgs(fs, args, tool).Ok? <==> Tier1ArgsPass(fs, args, tool)
    ensures var r := ValidateTier1BinaryArgs(fs, args, tool);
            r.Ok? ==>
              r.value["binary_path"] == Str(fs.resolve(args["binary_path"].s)) &&
              HoldsArgs(r.value, map["binary_path" := r.value["binary_path"]],
                        ToolKeys(args, tool) + {"output_format", "ai_analysis"}, args)
  {
    var r := ValidateTier1BinaryArgs(fs, args, tool);
    if RequireBinaryPath(fs, args).Ok? {
      var base := map["binary_path" := Str(RequireBinaryPath(fs, args).value)];
      ToolArgsExactly(args, tool, base);
    }
  }

  /**
   * An accepted `strings` `min_length` lies in 1..100 and any other value is
   * rejected; with the other arguments valid, every value in 1..100 is
   * accepted and kept as given.
   */
  lemma Tier1MinLengthBounds(fs: FileSystem, args: Args, n: int)
    ensures var r := ValidateTier1BinaryArgs(fs, args, "strings");
            (r.Ok? ==> "min_length" in r.value && IntBetween(r.value["min_length"], 1, 100)) &&
            ("min_length" in args && !IntBetween(args["min_length"], 1, 100) ==> r.Err?)
    ensures 1 <= n <= 100 && Tier1ArgsPass(fs, args, "strings") ==>
              var r := ValidateTier1BinaryArgs(fs, args["min_length" := Int(n)], "strings");
              r.Ok? && r.value["min_length"] == Int(n)
  {
    if 1 <= n <= 100 && Tier1ArgsPass(fs, args, "strings") {
      var args' := args["min_length" := Int(n)];
      assert RequireBinaryPath(fs, args') == RequireBinaryPath(fs, args);
      Tier1AcceptsExactly(fs, args', "strings");
    }
  }

  /**
   * An accepted hexdump `offset` is at least 0 and `length` lies in
   * 1..1048576; any argument outside these bounds is rejected. With the
   * other arguments valid, every offset and length within them is accepted
   * and kept as given.
   */
  lemma Tier1HexdumpBounds(fs: FileSystem, args: Args, offset: int, length: int)
    ensures var r := ValidateTier1BinaryArgs(fs, args, "hexdump");
            (r.Ok? ==> "offset" in r.value && IsInt(r.value["offset"]) && IntOf(r.value["offset"]) >= 0) &&
            (r.Ok? ==> "length" in r.value && IntBetween(r.value["length"], 1, MaxHexdumpLength)) &&
            ("offset" in args && !(IsInt(args["offset"]) && IntOf(args["offset"]) >= 0) ==> r.Err?) &&
            ("length" in args && !IntBetween(args["length"], 1, MaxHexdumpLength) ==> r.Err?)
    ensures 0 <= offset && 1 <= length <= MaxHexdumpLength && Tier1ArgsPass(fs, args, "hexdump") ==>
              var r := ValidateTier1BinaryArgs(fs, args["offset" := Int(offset)]["length" := Int(length)], "hexdump");
              r.Ok? && r.value["offset"] == Int(offset) && r.value["length"] == Int(length)
  {
    if 0 <= offset && 1 <= length <= MaxHexdumpLength && Tier1ArgsPass(fs, args, "hexdump") {
      var args' := args["offset" := Int(offset)]["length" := Int(length)];
      assert RequireBinaryPath(fs, args') == RequireBinaryPath(fs, args);
      Tier1AcceptsExactly(fs, args', "hexdump");
    }
  }

  const StringEncodings: seq<string> := ["ascii", "utf-8", "utf-16", "all"]
  const ObjdumpTypes: seq<string> := ["headers", "disassemble", "symbols", "sections", "relocs", "dynamic", "all"]
  const ObjdumpArchitectures: seq<string> := ["i386", "x86-64", "arm", "aarch64", "mips", "powerpc", "sparc"]
  const ReadelfTypes: seq<string> := ["headers", "sections", "symbols", "relocs", "dynamic", "notes", "all"]
  const HexdumpFormats: seq<string> := ["canonical", "octal", "hex", "decimal"]

  /** An accepted `strings` encoding comes from its allow-list. */
  lemma Tier1StringsEncoding(fs: FileSystem, args: Args)
    ensures var r := ValidateTier1BinaryArgs(fs, args, "strings");
            (r.Ok? ==> "encoding" in r.value && OneOf(r.value["encoding"], StringEncodings)) &&
            ("encoding" in args && !OneOf(args["encoding"], StringEncodings) ==> r.Err?)
  {
  }

  /** objdump: the analysis type is allow-listed; the architecture is checked only when truthy. */
  lemma Tier1ObjdumpEnums(fs: FileSystem, args: Args)
    ensures var r := ValidateTier1BinaryArgs(fs, args, "objdump");
            (r.Ok? ==> "analysis_type" in r.value && OneOf(r.value["analysis_type"], ObjdumpTypes)) &&
            (r.Ok? && "architecture" in r.value ==> OneOf(r.value["architecture"], ObjdumpArchitectures)) &&
            (r.Ok? ==> ("architecture" in r.value <==> "architecture" in args && Truthy(args["architecture"])))
    ensures var r := ValidateTier1BinaryArgs(fs, args, "objdump");
            ("architecture" in args && Truthy(args["architecture"]) && !OneOf(args["architecture"], ObjdumpArchitectures)) ==>
              r.Err?
  {
  }

  /** readelf: the analysis type is allow-listed. */
  lemma Tier1ReadelfType(fs: FileSystem, args: Args)
    ensures var r := ValidateTier1BinaryArgs(fs, args, "readelf");
            (r.Ok? ==> "analysis_type" in r.value && OneOf(r.value["analysis_type"], ReadelfTypes)) &&
            ("analysis_type" in args && !OneOf(args["analysis_type"], ReadelfTypes) ==> r.Err?)
  {
  }

  /** hexdump: the format is allow-listed. */
  lemma Tier1HexdumpFormat(fs: FileSystem, args: Args)
    ensures var r := ValidateTier1BinaryArgs(fs, args, "hexdump");
            (r.Ok? ==> "format" in r.value && OneOf(r.value["format"], HexdumpFormats)) &&
            ("format" in args && !OneOf(args["format"], HexdumpFormats) ==> r.Err?)
  {
  }

  /** With only a valid `binary_path`, every tool accepts, with text output and AI analysis on. */
  lemma Tier1DefaultsAccepted(fs: FileSystem, path: string, tool: string)
    requires SanitizePath(fs, path).Some?
    ensures var r := ValidateTier1BinaryArgs(fs, map["binary_path" := Str(path)], tool);
            r.Ok? && r.value["output_format"] == Str("text") && r.value["ai_analysis"] == Bool(true)
  {
    assert RequireBinaryPath(fs, map["binary_path" := Str(path)]).Ok?;
  }

  /** `strings` defaults to a minimum length of 4 and every encoding. */
  lemma StringsDefaults(fs: FileSystem, path: string)
    requires SanitizePath(fs, path).Some?
    ensures var r := ValidateTier1BinaryArgs(fs, map["binary_path" := Str(path)], "strings");
            r.Ok? && r.value["min_length"] == Int(4) && r.value["encoding"] == Str("all")
  {
    assert RequireBinaryPath(fs, map["binary_path" := Str(path)]).Ok?;
  }

  /** `objdump` defaults to every analysis type and no architecture. */
  lemma ObjdumpDefaults(fs: FileSystem, path: string)
    requires SanitizePath(fs, path).Some?
    ensures var r := ValidateTier1BinaryArgs(fs, map["binary_path" := Str(path)], "objdump");
            r.Ok? && r.value["analysis_type"] == Str("all") && "architecture" !in r.value
  {
    assert RequireBinaryPath(fs, map["binary_path" := Str(path)]).Ok?;
  }

  /** `hexdump` defaults to offset 0, 512 bytes, canonical format. */
  lemma HexdumpDefaults(fs: FileSystem, path: string)
    requires SanitizePath(fs, path).Some?
    ensures var r := ValidateTier1BinaryArgs(fs, map["binary_path" := Str(path)], "hexdump");
            r.Ok? && r.value["offset"] == Int(0) && r.value["length"] == Int(512) && r.value["format"] == Str("canonical")
  {
    assert RequireBinaryPath(fs, map["binary_path" := Str(path)]).Ok?;
  }

  /** `validate_file_info_args`: the common checks plus a boolean `detailed`, default true. */
  function ValidateFileInfoArgs(fs: FileSystem, args: Args): (r: Result<Args>)
    ensures r.Ok? ==> ValidateTier1BinaryArgs(fs, args, "file").Ok? && "detailed" in r.value && r.value["detailed"].Bool?
    ensures "detailed" in args && !args["detailed"].Bool? ==> r.Err?
    ensures ValidateTier1BinaryArgs(fs, args, "file").Err? ==> r.Err?
    ensures r.Ok? <==> Tier1ArgsPass(fs, args, "file") && ArgOr(args, "detailed", Bool(true)).Bool?
    ensures r.Ok? ==> r.value.Keys == {"binary_path", "output_format", "ai_analysis", "detailed"} &&
                      r.value["detailed"] == ArgOr(args, "detailed", Bool(true)) &&
                      r.value["output_format"] == ArgOr(args, "output_format", Str("text")) &&
                      r.value["ai_analysis"] == ArgOr(args, "ai_analysis", Bool(true))
  {
    Tier1AcceptsExactly(fs, args, "file");
    match ValidateTier1BinaryArgs(fs, args, "file")
    case Err(e) => Err(e)
    case Ok(validated) =>
      var detailed := ArgOr(args, "detailed", Bool(true));
      if !detailed.Bool? then Err("Invalid detailed flag (must be boolean)")
      else Ok(validated["detailed" := detailed])
  }
}
