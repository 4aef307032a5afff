/**
 * The three comparisons of `binary_diff_engine.py` that look at content:
 * `file_level_diff` (a byte scan), `string_level_diff` and
 * `function_level_diff` (set differences of what the tier-1 tools found).
 *
 * Files are a map from path to content and readability. The tier-1 results
 * are inputs: `Err` carries the message of the exception a tier-1 call
 * raises. Python sets are listed in no particular order, so the listing
 * methods choose elements arbitrarily and their contracts allow any order.
 */
module DiffLevels {
  import opened Wrappers
  import opened Text
  import opened Bytes
  import opened Tier1Runs
  import opened DiffParsing

  const MaxDiffPositions: nat := 1000
  const MaxListedStrings: nat := 100
  const MaxListedFunctions: nat := 50

  function MaxOf(a: nat, b: nat): nat
  {
    if a < b then b else a
  }

  /* ---------------- file level ---------------- */

  /** A regular file: its bytes, and whether the process may read it. */
  datatype FileEntry = FileEntry(content: seq<byte>, readable: bool)

  type Files = map<string, FileEntry>

  /** `f.read(1)` at an offset: the byte there, or nothing past the end. */
  function ByteAt(data: seq<byte>, pos: nat): Option<byte>
  {
    if pos < |data| then Some(data[pos]) else None
  }

  predicate Differs(a: seq<byte>, b: seq<byte>, pos: nat)
  {
    ByteAt(a, pos) != ByteAt(b, pos)
  }

  /** An entry of `diff_positions`: the offset and the two bytes, `None` past a file's end. */
  datatype DiffPosition = DiffPosition(position: nat, byte1: Option<byte>, byte2: Option<byte>)

  /** Every offset below `n` at which the two contents differ, in ascending order. */
  function MismatchesBelow(a: seq<byte>, b: seq<byte>, n: nat): seq<DiffPosition>
  {
    if n == 0 then []
    else
      MismatchesBelow(a, b, n - 1) +
      (if Differs(a, b, n - 1) then [DiffPosition(n - 1, ByteAt(a, n - 1), ByteAt(b, n - 1))] else [])
  }

  /** Every differing offset of the two files, up to the end of the longer one. */
  function Mismatches(a: seq<byte>, b: seq<byte>): seq<DiffPosition>
  {
    MismatchesBelow(a, b, MaxOf(|a|, |b|))
  }

  /** A listed difference: an offset below `n` where the contents differ, with the bytes found there. */
  predicate Listed(a: seq<byte>, b: seq<byte>, d: DiffPosition, n: nat)
  {
    d.position < n && Differs(a, b, d.position) && d.byte1 == ByteAt(a, d.position) && d.byte2 == ByteAt(b, d.position)
  }

  /**
   * The scan lists only differing offsets below `n`, in strictly increasing
   * order and with the two bytes found there.
   */
  lemma {:induction false} MismatchesBelowSound(a: seq<byte>, b: seq<byte>, n: nat)
    ensures forall k :: 0 <= k < |MismatchesBelow(a, b, n)| ==> Listed(a, b, MismatchesBelow(a, b, n)[k], n)
    ensures forall k, l :: 0 <= k < l < |MismatchesBelow(a, b, n)| ==>
              MismatchesBelow(a, b, n)[k].position < MismatchesBelow(a, b, n)[l].position
  {
    if n > 0 {
      MismatchesBelowSound(a, b, n - 1);
      var prev := MismatchesBelow(a, b, n - 1);
      var r := MismatchesBelow(a, b, n);
      var last := DiffPosition(n - 1, ByteAt(a, n - 1), ByteAt(b, n - 1));
      assert r == prev + (if Differs(a, b, n - 1) then [last] else []);
      assert forall k :: 0 <= k < |prev| ==> r[k] == prev[k] && Listed(a, b, prev[k], n - 1);
    }
  }

  /** Some entry of the list is at offset `p`. */
  predicate ListedAt(r: seq<DiffPosition>, p: nat)
  {
    exists k :: 0 <= k < |r| && r[k].position == p
  }

  /** The scan lists every differing offset below `n`. */
  lemma {:induction false} MismatchesBelowComplete(a: seq<byte>, b: seq<byte>, n: nat)
    ensures forall p :: 0 <= p < n && Differs(a, b, p) ==> ListedAt(MismatchesBelow(a, b, n), p)
  {
    if n > 0 {
      MismatchesBelowComplete(a, b, n - 1);
      var prev := MismatchesBelow(a, b, n - 1);
      var r := MismatchesBelow(a, b, n);
      var last := DiffPosition(n - 1, ByteAt(a, n - 1), ByteAt(b, n - 1));
      assert r == prev + (if Differs(a, b, n - 1) then [last] else []);
      forall p | 0 <= p < n && Differs(a, b, p) ensures ListedAt(r, p) {
        if p < n - 1 {
          assert ListedAt(prev, p);
          var k :| 0 <= k < |prev| && prev[k].position == p;
          assert r[k] == prev[k];
        } else {
          assert r[|prev|].position == p;
        }
      }
    }
  }

  /**
   * The scan lists exactly the differing offsets below `n`, each once, in
   * strictly increasing order and with the two bytes found there.
   */
  lemma MismatchesBelowSpec(a: seq<byte>, b: seq<byte>, n: nat)
    ensures var r := MismatchesBelow(a, b, n);
      && (forall k :: 0 <= k < |r| ==>
            r[k].position < n && Differs(a, b, r[k].position) &&
            r[k].byte1 == ByteAt(a, r[k].position) && r[k].byte2 == ByteAt(b, r[k].position))
      && (forall k, l :: 0 <= k < l < |r| ==> r[k].position < r[l].position)
      && (forall p :: 0 <= p < n && Differs(a, b, p) ==> exists k :: 0 <= k < |r| && r[k].position == p)
  {
    MismatchesBelowSound(a, b, n);
    MismatchesBelowComplete(a, b, n);
  }

  /** Mismatches within the common prefix of the two files. */
  function CommonMismatchCount(a: seq<byte>, b: seq<byte>, n: nat): nat
    requires n <= |a| && n <= |b|
  {
    if n == 0 then 0
    else CommonMismatchCount(a, b, n - 1) + (if a[n - 1] != b[n - 1] then 1 else 0)
  }

  lemma {:induction false} MismatchCountBelow(a: seq<byte>, b: seq<byte>, n: nat)
    requires n <= MaxOf(|a|, |b|)
    ensures |a| <= |b| && n <= |a| ==> |MismatchesBelow(a, b, n)| == CommonMismatchCount(a, b, n)
    ensures |b| <= |a| && n <= |b| ==> |MismatchesBelow(a, b, n)| == CommonMismatchCount(a, b, n)
    ensures |a| <= |b| && |a| <= n ==> |MismatchesBelow(a, b, n)| == CommonMismatchCount(a, b, |a|) + (n - |a|)
    ensures |b| <= |a| && |b| <= n ==> |MismatchesBelow(a, b, n)| == CommonMismatchCount(a, b, |b|) + (n - |b|)
  {
    if n > 0 {
      MismatchCountBelow(a, b, n - 1);
    }
  }

  /**
   * `byte_diff_count`: the mismatches within the common prefix plus one for
   * every byte of the longer file past the end of the shorter.
   */
  lemma ByteDiffCount(a: seq<byte>, b: seq<byte>)
    ensures |a| <= |b| ==> |Mismatches(a, b)| == CommonMismatchCount(a, b, |a|) + (|b| - |a|)
    ensures |b| <= |a| ==> |Mismatches(a, b)| == CommonMismatchCount(a, b, |b|) + (|a| - |b|)
  {
    MismatchCountBelow(a, b, MaxOf(|a|, |b|));
  }

  /** A content has no mismatch with itself. */
  lemma {:induction false} NoMismatchWithItself(a: seq<byte>, n: nat)
    ensures MismatchesBelow(a, a, n) == []
  {
    if n > 0 {
      NoMismatchWithItself(a, n - 1);
      assert !Differs(a, a, n - 1);
    }
  }

  /** Two contents have no mismatch exactly when they are equal. */
  lemma NoMismatchIffEqual(a: seq<byte>, b: seq<byte>)
    ensures Mismatches(a, b) == [] <==> a == b
  {
    var n := MaxOf(|a|, |b|);
    var r := MismatchesBelow(a, b, n);
    MismatchesBelowSpec(a, b, n);
    ByteDiffCount(a, b);
    NoMismatchWithItself(a, n);
    assert Mismatches(a, b) == r;
    assert r == [] ==> |a| == |b|;
    if r == [] {
      forall i | 0 <= i < |a| ensures a[i] == b[i] {
        assert !Differs(a, b, i);
      }
    }
  }

  /**
   * The byte loop of `file_level_diff`: it counts every differing offset
   * and records the first thousand.
   */
  method ScanBytes(a: seq<byte>, b: seq<byte>) returns (count: nat, positions: seq<DiffPosition>)
    ensures count == |Mismatches(a, b)|
    ensures positions == Mismatches(a, b)[..Min(count, MaxDiffPositions)]
  {
    count := 0;
    positions := [];
    var pos := 0;
    var end := MaxOf(|a|, |b|);
    while pos < end
      invariant pos <= end
      invariant count == |MismatchesBelow(a, b, pos)|
      invariant positions == MismatchesBelow(a, b, pos)[..Min(count, MaxDiffPositions)]
    {
      var byte1 := ByteAt(a, pos);
      var byte2 := ByteAt(b, pos);
      ghost var prev := MismatchesBelow(a, b, pos);
      if byte1 != byte2 {
        var d := DiffPosition(pos, byte1, byte2);
        assert MismatchesBelow(a, b, pos + 1) == prev + [d];
        count := count + 1;
        if |positions| < MaxDiffPositions {
          positions := positions + [d];
          assert (prev + [d])[..count] == prev + [d];
        } else {
          assert (prev + [d])[..MaxDiffPositions] == prev[..MaxDiffPositions];
        }
      } else {
        assert MismatchesBelow(a, b, pos + 1) == prev;
      }
      pos := pos + 1;
    }
  }

  /** `file_level_diff`'s result dict, or its error. */
  datatype FileLevel =
    | FileCompared(identical: bool, sizeDiff: int, byteDiffCount: nat, positions: seq<DiffPosition>)
    | FileLevelFailed(error: string)

  /** The messages of the `OSError`s the file accesses raise. */
  function NotFound(path: string): string
  {
    "[Errno 2] No such file or directory: '" + path + "'"
  }

  function PermissionDenied(path: string): string
  {
    "[Errno 13] Permission denied: '" + path + "'"
  }

  /**
   * `_get_file_hash`: the SHA-256 of the content, taken to be injective, so
   * the content itself; `None` stands for the "" returned when the file
   * cannot be read.
   */
  function ContentHash(files: Files, path: string): Option<seq<byte>>
    requires path in files
  {
    if files[path].readable then Some(files[path].content) else None
  }

  /**
   * What `file_level_diff` returns: the sizes are taken first (a missing
   * file raises), then equal hashes short-cut to `identical`, otherwise the
   * files are opened (an unreadable one raises) and scanned.
   */
  function FileLevelOf(files: Files, binary1: string, binary2: string): FileLevel
  {
    if binary1 !in files then FileLevelFailed(NotFound(binary1))
    else if binary2 !in files then FileLevelFailed(NotFound(binary2))
    else
      var a := files[binary1].content;
      var b := files[binary2].content;
      if ContentHash(files, binary1) == ContentHash(files, binary2) then FileCompared(true, |b| - |a|, 0, [])
      else if !files[binary1].readable then FileLevelFailed(PermissionDenied(binary1))
      else if !files[binary2].readable then FileLevelFailed(PermissionDenied(binary2))
      else
        var m := Mismatches(a, b);
        FileCompared(false, |b| - |a|, |m|, m[..Min(|m|, MaxDiffPositions)])
  }

  /** `file_level_diff`. */
  method FileLevelDiff(files: Files, binary1: string, binary2: string) returns (r: FileLevel)
    ensures r == FileLevelOf(files, binary1, binary2)
  {
    if binary1 !in files {
      return FileLevelFailed(NotFound(binary1));
    }
    if binary2 !in files {
      return FileLevelFailed(NotFound(binary2));
    }
    var a := files[binary1].content;
    var b := files[binary2].content;
    if ContentHash(files, binary1) == ContentHash(files, binary2) {
      return FileCompared(true, |b| - |a|, 0, []);
    }
    if !files[binary1].readable {
      return FileLevelFailed(PermissionDenied(binary1));
    }
    if !files[binary2].readable {
      return FileLevelFailed(PermissionDenied(binary2));
    }
    var count, positions := ScanBytes(a, b);
    r := FileCompared(false, |b| - |a|, count, positions);
  }

  /**
   * Two readable files are reported identical exactly when their contents
   * are equal; `size_diff` is the second size minus the first; the count
   * is zero exactly for identical files; at most a thousand positions are
   * listed, each a real difference, in increasing order.
   */
  lemma FileLevelOfReadable(files: Files, binary1: string, binary2: string)
    requires binary1 in files && binary2 in files
    requires files[binary1].readable && files[binary2].readable
    ensures var r := FileLevelOf(files, binary1, binary2);
      var a := files[binary1].content;
      var b := files[binary2].content;
      && r.FileCompared?
      && (r.identical <==> a == b)
      && r.sizeDiff == |b| - |a|
      && (r.byteDiffCount == 0 <==> r.identical)
      && r.byteDiffCount == |Mismatches(a, b)|
      && |r.positions| == Min(r.byteDiffCount, MaxDiffPositions)
      && (forall k :: 0 <= k < |r.positions| ==> Differs(a, b, r.positions[k].position))
      && (forall k, l :: 0 <= k < l < |r.positions| ==> r.positions[k].position < r.positions[l].position)
  {
    var a := files[binary1].content;
    var b := files[binary2].content;
    NoMismatchIffEqual(a, b);
    MismatchesBelowSpec(a, b, MaxOf(|a|, |b|));
  }

  /**
   * Two unreadable files both hash to "", so they are reported identical
   * whatever their contents.
   */
  lemma FileLevelOfUnreadable(files: Files, binary1: string, binary2: string)
    requires binary1 in files && binary2 in files
    requires !files[binary1].readable && !files[binary2].readable
    ensures FileLevelOf(files, binary1, binary2) ==
              FileCompared(true, |files[binary2].content| - |files[binary1].content|, 0, [])
  {
  }

  /* ---------------- listing sets ---------------- */

  /**
   * `list(s)[:n]`: at most `n` distinct elements of `s`, all of them when
   * `s` has no more than `n`.
   */
  predicate Listing<T>(r: seq<T>, s: set<T>, n: nat)
  {
    && |r| == Min(|s|, n)
    && (forall i, j :: 0 <= i < j < |r| ==> r[i] != r[j])
    && (forall i :: 0 <= i < |r| ==> r[i] in s)
    && (|s| <= n ==> forall x :: x in s ==> x in r)
  }

  /** Lists a set in an arbitrary order and keeps the first `n` elements. */
  method ListSet<T>(s: set<T>, n: nat) returns (r: seq<T>)
    ensures Listing(r, s, n)
  {
    r := [];
    var rest := s;
    while |r| < n && rest != {}
      invariant |r| <= n
      invariant rest <= s
      invariant |r| + |rest| == |s|
      invariant forall x :: x in s ==> x in rest || x in r
      invariant forall i :: 0 <= i < |r| ==> r[i] in s && r[i] !in rest
      invariant forall i, j :: 0 <= i < j < |r| ==> r[i] != r[j]
      decreases |rest|
    {
      var x :| x in rest;
      ghost var prev := r;
      r := r + [x];
      rest := rest - {x};
      assert forall i :: 0 <= i < |prev| ==> r[i] == prev[i];
      assert |rest| == |rest + {x}| - 1;
    }
  }

  /** The elements of a list, as `set(xs)`. */
  function Elements<T>(xs: seq<T>): set<T>
  {
    set x | x in xs
  }

  /* ---------------- string level ---------------- */

  /** `string_level_diff`'s result dict, or its error. */
  datatype StringLevel =
    | StringsCompared(count1: nat, count2: nat, added: seq<string>, removed: seq<string>, commonCount: nat)
    | StringLevelFailed(error: string)

  /** The result for two string lists, whichever order the sets are listed in. */
  predicate StringLevelFor(strings1: seq<string>, strings2: seq<string>, r: StringLevel)
  {
    var s1 := Elements(strings1);
    var s2 := Elements(strings2);
    && r.StringsCompared?
    && r.count1 == |strings1| && r.count2 == |strings2|
    && Listing(r.added, s2 - s1, MaxListedStrings)
    && Listing(r.removed, s1 - s2, MaxListedStrings)
    && r.commonCount == |s1 * s2|
  }

  /** The result for two tier-1 strings runs: the first failure's message, or the comparison. */
  predicate StringLevelOutcome(result1: Result<map<string, StringsEntry>>, result2: Result<map<string, StringsEntry>>,
                               r: StringLevel)
  {
    if result1.Err? then r == StringLevelFailed(result1.msg)
    else if result2.Err? then r == StringLevelFailed(result2.msg)
    else StringLevelFor(Tier1Strings(result1.value, AllEncodings), Tier1Strings(result2.value, AllEncodings), r)
  }

  /**
   * `string_level_diff`: the strings of every encoding of each binary
   * (`strings -a -4`, encoding "all"), compared as sets.
   */
  method StringLevelDiff(result1: Result<map<string, StringsEntry>>, result2: Result<map<string, StringsEntry>>)
    returns (r: StringLevel)
    ensures StringLevelOutcome(result1, result2, r)
  {
    if result1.Err? {
      return StringLevelFailed(result1.msg);
    }
    if result2.Err? {
      return StringLevelFailed(result2.msg);
    }
    var strings1 := Tier1Strings(result1.value, AllEncodings);
    var strings2 := Tier1Strings(result2.value, AllEncodings);
    var s1 := Elements(strings1);
    var s2 := Elements(strings2);
    var added := ListSet(s2 - s1, MaxListedStrings);
    var removed := ListSet(s1 - s2, MaxListedStrings);
    r := StringsCompared(|strings1|, |strings2|, added, removed, |s1 * s2|);
  }

  /**
   * Added and removed strings never overlap, and every distinct string of
   * the first binary is either common or removed.
   */
  lemma StringLevelCounts(strings1: seq<string>, strings2: seq<string>, r: StringLevel)
    requires StringLevelFor(strings1, strings2, r)
    ensures forall x :: x in r.added ==> x !in r.removed
    ensures |Elements(strings1)| == r.commonCount + |Elements(strings1) - Elements(strings2)|
    ensures |Elements(strings2)| == r.commonCount + |Elements(strings2) - Elements(strings1)|
    ensures |r.added| <= MaxListedStrings && |r.removed| <= MaxListedStrings
  {
    var s1 := Elements(strings1);
    var s2 := Elements(strings2);
    assert s1 == (s1 * s2) + (s1 - s2) && (s1 * s2) * (s1 - s2) == {};
    assert s2 == (s1 * s2) + (s2 - s1) && (s1 * s2) * (s2 - s1) == {};
  }

  /* ---------------- function level ---------------- */

  /**
   * `_parse_objdump_functions`: the loop over the stripped lines, saving the
   * open function when a new header starts and once more at the end.
   */
  method ParseObjdumpFunctions(output: string) returns (functions: map<string, seq<string>>)
    ensures functions == ObjdumpFunctions(output)
  {
    functions := ParseLines(Lines(output));
  }

  /** The loop of `_parse_objdump_functions` over the lines of the output. */
  method ParseLines(lines: seq<string>) returns (functions: map<string, seq<string>>)
    ensures functions == FunctionsOf(StripAll(lines))
  {
    ghost var stripped := StripAll(lines);
    functions := map[];
    var current: Option<string> := None;
    var instrs: seq<string> := [];
    var i := 0;
    while i < |lines|
      invariant i <= |lines|
      invariant ParseState(current, instrs, functions) == Run(Start, stripped[..i])
    {
      ghost var before := ParseState(current, instrs, functions);
      assert Strip(lines[i]) == stripped[i];
      current, instrs, functions := ParseLine(current, instrs, functions, Strip(lines[i]));
      RunSnoc(Start, stripped, i);
      i := i + 1;
    }
    assert stripped[..i] == stripped;
    if current.Some? && current.value != [] && instrs != [] {
      functions := functions[current.value := instrs];
    }
  }

  /** One turn of the loop of `_parse_objdump_functions`, on a stripped line. */
  method ParseLine(current: Option<string>, instrs: seq<string>, functions: map<string, seq<string>>, line: string)
    returns (current': Option<string>, instrs': seq<string>, functions': map<string, seq<string>>)
    ensures ParseState(current', instrs', functions') == Step(ParseState(current, instrs, functions), line)
  {
    current', instrs', functions' := current, instrs, functions;
    if IsFunctionHeader(line) {
      if current.Some? && current.value != [] && instrs != [] {
        functions' := functions[current.value := instrs];
      }
      var name := FunctionName(line);
      if name != [] {
        current' := Some(name);
        instrs' := [];
      }
    } else if current.Some? && current.value != [] && IsInstruction(line) {
      instrs' := instrs + [line];
    }
  }

  /** Running over one more line is one more step. */
  lemma RunSnoc(st: ParseState, lines: seq<string>, i: nat)
    requires i < |lines|
    ensures Run(st, lines[..i + 1]) == Step(Run(st, lines[..i]), lines[i])
  {
    assert lines[..i + 1] == lines[..i] + [lines[i]];
    RunAppend(st, lines[..i], [lines[i]]);
    assert Run(Run(st, lines[..i]), [lines[i]]) == Run(Step(Run(st, lines[..i]), lines[i]), []);
  }

  /** `_parse_tier1_objdump_result`. */
  method ParseTier1Objdump(results: map<string, ToolEntry>) returns (functions: map<string, seq<string>>)
    ensures functions == Tier1Functions(results)
  {
    if "disassemble" in results && results["disassemble"].Ran? {
      functions := ParseObjdumpFunctions(results["disassemble"].output);
    } else {
      functions := map[];
    }
  }

  /** An entry of `changed_functions`: the name and both instruction counts. */
  datatype ChangedFunction = ChangedFunction(name: string, instructions1: nat, instructions2: nat)

  /** The functions both binaries have, with different instruction lists. */
  function ChangedNames(f1: map<string, seq<string>>, f2: map<string, seq<string>>): set<string>
  {
    set n | n in f1 && n in f2 && f1[n] != f2[n]
  }

  /** A list of changed-function entries: distinct names, all changed, with their counts. */
  predicate ChangedEntries(changed: seq<ChangedFunction>, f1: map<string, seq<string>>, f2: map<string, seq<string>>)
  {
    && (forall i, j :: 0 <= i < j < |changed| ==> changed[i].name != changed[j].name)
    && (forall i :: 0 <= i < |changed| ==>
          var n := changed[i].name;
          n in ChangedNames(f1, f2) && changed[i] == ChangedFunction(n, |f1[n]|, |f2[n]|))
  }

  /** The names a list of changed-function entries holds. */
  function NamesOf(changed: seq<ChangedFunction>): set<string>
  {
    set i | 0 <= i < |changed| :: changed[i].name
  }

  /** Appending the entry of a changed function not yet listed keeps the list well formed. */
  lemma ChangedEntriesSnoc(changed: seq<ChangedFunction>, c: ChangedFunction,
                           f1: map<string, seq<string>>, f2: map<string, seq<string>>)
    requires ChangedEntries(changed, f1, f2)
    requires c.name in ChangedNames(f1, f2) && c.name !in NamesOf(changed)
    requires c == ChangedFunction(c.name, |f1[c.name]|, |f2[c.name]|)
    ensures ChangedEntries(changed + [c], f1, f2)
    ensures NamesOf(changed + [c]) == NamesOf(changed) + {c.name}
  {
    var r := changed + [c];
    assert forall i :: 0 <= i < |changed| ==> r[i] == changed[i] && changed[i].name in NamesOf(changed);
    assert r[|changed|] == c;
  }

  /** Taking one element out of what is left to visit. */
  lemma RemoveFromRest<T>(done: set<T>, target: set<T>, rest: set<T>, x: T)
    requires done == target - rest && x in rest
    ensures x !in done
    ensures x in target ==> done + {x} == target - (rest - {x})
    ensures x !in target ==> done == target - (rest - {x})
  {
  }

  /** The loop over the common functions, in set order, collecting those that changed. */
  method CollectChanged(f1: map<string, seq<string>>, f2: map<string, seq<string>>)
    returns (changed: seq<ChangedFunction>)
    ensures ChangedEntries(changed, f1, f2)
    ensures NamesOf(changed) == ChangedNames(f1, f2)
    ensures |changed| == |ChangedNames(f1, f2)|
  {
    var rest := f1.Keys * f2.Keys;
    changed := [];
    while rest != {}
      invariant rest <= f1.Keys * f2.Keys
      invariant ChangedEntries(changed, f1, f2)
      invariant NamesOf(changed) == ChangedNames(f1, f2) - rest
      decreases |rest|
    {
      var n :| n in rest;
      ghost var names := NamesOf(changed);
      RemoveFromRest(names, ChangedNames(f1, f2), rest, n);
      if f1[n] != f2[n] {
        var entry := ChangedFunction(n, |f1[n]|, |f2[n]|);
        assert n in ChangedNames(f1, f2);
        ChangedEntriesSnoc(changed, entry, f1, f2);
        changed := changed + [entry];
      } else {
        assert n !in ChangedNames(f1, f2);
      }
      rest := rest - {n};
      assert |rest| == |rest + {n}| - 1;
    }
    DistinctNamesCount(changed);
  }

  /** A prefix of a well-formed list of changed-function entries is well formed. */
  lemma ChangedPrefix(changed: seq<ChangedFunction>, k: nat, f1: map<string, seq<string>>, f2: map<string, seq<string>>)
    requires ChangedEntries(changed, f1, f2) && k <= |changed|
    ensures ChangedEntries(changed[..k], f1, f2)
  {
    assert forall i :: 0 <= i < k ==> changed[..k][i] == changed[i];
  }

  /** `function_level_diff`'s result dict, or its error. */
  datatype FunctionLevel =
    | FunctionsCompared(count1: nat, count2: nat, added: seq<string>, removed: seq<string>,
                        changed: seq<ChangedFunction>)
    | FunctionLevelFailed(error: string)

  /** The result for two function maps, whichever order the sets are listed in. */
  predicate FunctionLevelFor(f1: map<string, seq<string>>, f2: map<string, seq<string>>, r: FunctionLevel)
  {
    && r.FunctionsCompared?
    && r.count1 == |f1| && r.count2 == |f2|
    && Listing(r.added, f2.Keys - f1.Keys, MaxListedFunctions)
    && Listing(r.removed, f1.Keys - f2.Keys, MaxListedFunctions)
    && ChangedEntries(r.changed, f1, f2)
    && |r.changed| == Min(|ChangedNames(f1, f2)|, MaxListedFunctions)
  }

  /** The result for two tier-1 objdump runs: the first failure's message, or the comparison. */
  predicate FunctionLevelOutcome(result1: Result<map<string, ToolEntry>>, result2: Result<map<string, ToolEntry>>,
                                 r: FunctionLevel)
  {
    if result1.Err? then r == FunctionLevelFailed(result1.msg)
    else if result2.Err? then r == FunctionLevelFailed(result2.msg)
    else FunctionLevelFor(Tier1Functions(result1.value), Tier1Functions(result2.value), r)
  }

  /**
   * `function_level_diff`: the disassembly of each binary (`objdump -d -m
   * auto`), parsed into functions and compared by name and by instruction
   * list.
   */
  method FunctionLevelDiff(result1: Result<map<string, ToolEntry>>, result2: Result<map<string, ToolEntry>>)
    returns (r: FunctionLevel)
    ensures FunctionLevelOutcome(result1, result2, r)
  {
    if result1.Err? {
      return FunctionLevelFailed(result1.msg);
    }
    if result2.Err? {
      return FunctionLevelFailed(result2.msg);
    }
    var f1 := ParseTier1Objdump(result1.value);
    var f2 := ParseTier1Objdump(result2.value);
    var added := ListSet(f2.Keys - f1.Keys, MaxListedFunctions);
    var removed := ListSet(f1.Keys - f2.Keys, MaxListedFunctions);
    var changed := CollectChanged(f1, f2);
    var kept := changed[..Min(|changed|, MaxListedFunctions)];
    ChangedPrefix(changed, Min(|changed|, MaxListedFunctions), f1, f2);
    r := FunctionsCompared(|f1|, |f2|, added, removed, kept);
  }

  /**
   * When no more than fifty functions changed, a function is listed as
   * changed exactly when both binaries have it and its instructions differ.
   */
  lemma ChangedExactly(f1: map<string, seq<string>>, f2: map<string, seq<string>>, r: FunctionLevel, n: string)
    requires FunctionLevelFor(f1, f2, r)
    requires |ChangedNames(f1, f2)| <= MaxListedFunctions
    ensures (exists i :: 0 <= i < |r.changed| && r.changed[i].name == n) <==> n in f1 && n in f2 && f1[n] != f2[n]
  {
    var names := NamesOf(r.changed);
    assert names <= ChangedNames(f1, f2);
    DistinctNamesCount(r.changed);
    SubsetOfSameSize(names, ChangedNames(f1, f2));
    if n in f1 && n in f2 && f1[n] != f2[n] {
      assert n in names;
    }
  }

  /** A subset as large as the set is the set. */
  lemma {:induction false} SubsetOfSameSize<T>(a: set<T>, b: set<T>)
    requires a <= b && |a| == |b|
    ensures a == b
    decreases |a|
  {
    if a != {} {
      var x :| x in a;
      assert |a - {x}| == |a| - 1 && |b - {x}| == |b| - 1;
      SubsetOfSameSize(a - {x}, b - {x});
      assert a == (a - {x}) + {x} && b == (b - {x}) + {x};
    }
  }

  /** A list of entries with distinct names has as many names as entries. */
  lemma {:induction false} DistinctNamesCount(cs: seq<ChangedFunction>)
    requires forall i, j :: 0 <= i < j < |cs| ==> cs[i].name != cs[j].name
    ensures |NamesOf(cs)| == |cs|
  {
    if cs != [] {
      var init := cs[..|cs| - 1];
      DistinctNamesCount(init);
      var s := NamesOf(init);
      var t := NamesOf(cs);
      assert t == s + {cs[|cs| - 1].name};
      assert cs[|cs| - 1].name !in s;
    }
  }
}
