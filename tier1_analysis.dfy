/**
 * The text analysers of `tier1_tools.py`: string classification
 * (`_analyze_strings_patterns`), hex-byte extraction and magic detection
 * (`_analyze_hex_patterns`) and the objdump and readelf summaries
 * (`_summarize_objdump_output`, `_summarize_readelf_output`).
 */
module Tier1Analysis {
  import opened Wrappers
  import opened Text
  import opened Bytes
  import opened Json

  /* ---------------- String classification ---------------- */

  datatype Category = Url | FilePath | Crypto | Suspicious | ApiCall | ErrorMessage

  const UrlSchemes: seq<string> := ["http://", "https://", "ftp://"]
  const CryptoKeywords: seq<string> := ["encrypt", "decrypt", "key", "cipher", "hash", "sha", "md5", "aes", "rsa"]
  const SuspiciousKeywords: seq<string> := ["backdoor", "keylog", "password", "admin", "root", "shell", "exec"]
  const ErrorKeywords: seq<string> := ["error", "failed", "exception", "warning"]
  const SampleSize: nat := 100
  const CategoryCap: nat := 10

  /**
   * The category a string falls in, testing URL, file path, crypto keyword,
   * suspicious keyword, API call and error message in that order; keywords
   * are matched against the lower-cased string, `/`, `(` and `)` against the
   * string itself.
   */
  function Classify(s: string): Option<Category>
  {
    var low := Lower(s);
    if ContainsAny(low, UrlSchemes) then Some(Url)
    else if Contains(s, "/") && |s| > 5 then Some(FilePath)
    else if ContainsAny(low, CryptoKeywords) then Some(Crypto)
    else if ContainsAny(low, SuspiciousKeywords) then Some(Suspicious)
    else if Contains(s, "(") && Contains(s, ")") then Some(ApiCall)
    else if ContainsAny(low, ErrorKeywords) then Some(ErrorMessage)
    else None
  }

  /** The strings of `xs` in category `c`, in their order in `xs`. */
  function Matching(xs: seq<string>, c: Category): (r: seq<string>)
    ensures |r| <= |xs|
  {
    Filter(xs, s => Classify(s) == Some(c))
  }

  /** Each string of category `c` is kept as often as it occurs; every other string is dropped. */
  lemma MatchingCounts(xs: seq<string>, c: Category, x: string)
    ensures multiset(Matching(xs, c))[x] == if Classify(x) == Some(c) then multiset(xs)[x] else 0
  {
    FilterCounts(xs, s => Classify(s) == Some(c), x);
  }

  /** `xs[:n]`. */
  function Take<T>(xs: seq<T>, n: nat): (r: seq<T>)
    ensures |r| <= n && |r| <= |xs| && r == xs[..|r|]
    ensures |xs| <= n ==> r == xs
  {
    if |xs| <= n then xs else xs[..n]
  }

  /** A prefix no longer than `n` starts the first `n` elements exactly when it starts the whole. */
  lemma StartsWithTake<T>(xs: seq<T>, n: nat, prefix: seq<T>)
    requires |prefix| <= n
    ensures StartsWith(Take(xs, n), prefix) <==> StartsWith(xs, prefix)
  {
    if |xs| > n {
      assert Take(xs, n)[..|prefix|] == xs[..|prefix|];
    }
  }

  /** The result dict of `_analyze_strings_patterns`, one list per category. */
  datatype Patterns = Patterns(
    urls: seq<string>,
    filePaths: seq<string>,
    cryptoKeywords: seq<string>,
    apiCalls: seq<string>,
    errorMessages: seq<string>,
    suspicious: seq<string>)
  {
    function Field(c: Category): seq<string>
    {
      match c
      case Url => urls
      case FilePath => filePaths
      case Crypto => cryptoKeywords
      case Suspicious => suspicious
      case ApiCall => apiCalls
      case ErrorMessage => errorMessages
    }
  }

  /** `_analyze_strings_patterns`: the first ten of each category among the first hundred strings. */
  function AnalyzeStringsPatterns(strings: seq<string>): Patterns
  {
    var sample := Take(strings, SampleSize);
    Patterns(
      Take(Matching(sample, Url), CategoryCap),
      Take(Matching(sample, FilePath), CategoryCap),
      Take(Matching(sample, Crypto), CategoryCap),
      Take(Matching(sample, ApiCall), CategoryCap),
      Take(Matching(sample, ErrorMessage), CategoryCap),
      Take(Matching(sample, Suspicious), CategoryCap))
  }

  lemma FieldIsCappedMatching(strings: seq<string>, c: Category)
    ensures AnalyzeStringsPatterns(strings).Field(c) == Take(Matching(Take(strings, SampleSize), c), CategoryCap)
  {
  }

  /**
   * Every listed string is one of the first hundred and belongs to the
   * category it is listed under, and no category lists more than ten.
   */
  lemma PatternsSound(strings: seq<string>, c: Category, x: string)
    ensures |AnalyzeStringsPatterns(strings).Field(c)| <= CategoryCap
    ensures x in AnalyzeStringsPatterns(strings).Field(c) ==>
              Classify(x) == Some(c) && x in strings[..if |strings| < SampleSize then |strings| else SampleSize]
  {
    FieldIsCappedMatching(strings, c);
    var sample := Take(strings, SampleSize);
    var m := Matching(sample, c);
    if x in AnalyzeStringsPatterns(strings).Field(c) {
      assert x in m;
      MatchingCounts(sample, c, x);
      assert multiset(m)[x] > 0;
      assert x in multiset(sample);
    }
  }

  /** No string is listed under two categories. */
  lemma PatternsDisjoint(strings: seq<string>, c: Category, d: Category, x: string)
    requires c != d
    ensures !(x in AnalyzeStringsPatterns(strings).Field(c) && x in AnalyzeStringsPatterns(strings).Field(d))
  {
    PatternsSound(strings, c, x);
    PatternsSound(strings, d, x);
  }

  /**
   * When at most ten of the first hundred strings fall in a category, all of
   * them are listed, each as often as it occurs.
   */
  lemma PatternsComplete(strings: seq<string>, c: Category)
    requires |Matching(Take(strings, SampleSize), c)| <= CategoryCap
    ensures forall x :: Classify(x) == Some(c) ==>
              multiset(AnalyzeStringsPatterns(strings).Field(c))[x] == multiset(Take(strings, SampleSize))[x]
  {
    FieldIsCappedMatching(strings, c);
    forall x | Classify(x) == Some(c) {
      MatchingCounts(Take(strings, SampleSize), c, x);
    }
  }

  /** Category lists keep the input order: classifying a concatenation concatenates the lists. */
  lemma MatchingAppend(xs: seq<string>, ys: seq<string>, c: Category)
    ensures Matching(xs + ys, c) == Matching(xs, c) + Matching(ys, c)
  {
    FilterAppend(xs, ys, s => Classify(s) == Some(c));
  }

  /** Strings after the hundredth never affect the result. */
  lemma PatternsIgnoreTail(xs: seq<string>, ys: seq<string>)
    requires |xs| >= SampleSize
    ensures AnalyzeStringsPatterns(xs + ys) == AnalyzeStringsPatterns(xs)
  {
    assert (xs + ys)[..SampleSize] == xs[..SampleSize];
  }

  /**
   * "keylog" contains the crypto keyword "key", so a string naming a
   * keylogger is never listed as suspicious.
   */
  lemma KeylogIsNeverSuspicious(s: string)
    requires Contains(Lower(s), "keylog")
    ensures Classify(s) != Some(Suspicious)
  {
    ContainsPrefix(Lower(s), "keylog", "key");
    assert Contains(Lower(s), CryptoKeywords[2]);
  }

  /** A string containing `sub` contains every prefix of `sub`. */
  lemma {:induction false} ContainsPrefix(s: string, sub: string, pre: string)
    requires Contains(s, sub) && StartsWith(sub, pre)
    ensures Contains(s, pre)
  {
    if !StartsWith(s, sub) {
      ContainsPrefix(s[1..], sub, pre);
    } else {
      assert s[..|pre|] == sub[..|pre|];
    }
  }

  /* ---------------- Hex dump parsing ---------------- */

  /** A character of `'0123456789abcdef'`. */
  predicate IsHexDigit(c: char)
  {
    '0' <= c <= '9' || 'a' <= c <= 'f'
  }

  /** The lower-case hex digit of `n`. */
  function HexDigit(n: nat): (c: char)
    requires n < 16
    ensures IsHexDigit(c)
  {
    if n < 10 then ('0' as int + n) as char else ('a' as int + n - 10) as char
  }

  function HexValue(c: char): (v: nat)
    requires IsHexDigit(c)
    ensures v < 16 && HexDigit(v) == c
  {
    if '0' <= c <= '9' then (c as int - '0' as int) else (c as int - 'a' as int) + 10
  }

  /** `len(part) == 2 and all(c in '0123456789abcdef' for c in part.lower())`. */
  predicate IsHexToken(part: string)
  {
    |part| == 2 && IsHexDigit(LowerChar(part[0])) && IsHexDigit(LowerChar(part[1]))
  }

  /** `int(part, 16)` for a hex token. */
  function TokenValue(part: string): byte
    requires IsHexToken(part)
  {
    (HexValue(LowerChar(part[0])) * 16 + HexValue(LowerChar(part[1]))) as byte
  }

  /** The values of the hex tokens among `parts`, in order. */
  function TokenBytes(parts: seq<string>): (r: seq<byte>)
    ensures |r| <= |parts|
  {
    if parts == [] then []
    else (if IsHexToken(parts[0]) then [TokenValue(parts[0])] else []) + TokenBytes(parts[1..])
  }

  /** The bytes of one line: its hex tokens after the first (offset) token. */
  function LineBytes(line: string): seq<byte>
  {
    if IsBlank(line) then []
    else
      var parts := Words(line);
      if parts == [] then [] else TokenBytes(parts[1..])
  }

  function LinesBytes(lines: seq<string>): seq<byte>
  {
    if lines == [] then [] else LineBytes(lines[0]) + LinesBytes(lines[1..])
  }

  /** The `hex_bytes` list `_analyze_hex_patterns` extracts from a dump. */
  function HexBytes(output: string): seq<byte>
  {
    LinesBytes(Lines(output))
  }

  /** `hex_bytes.count(0)`, the `null_bytes` figure. */
  function NullBytes(bs: seq<byte>): (n: nat)
    ensures n == multiset(bs)[0]
    ensures n <= |bs|
  {
    if bs == [] then 0
    else
      assert bs == [bs[0]] + bs[1..];
      (if bs[0] == 0 then 1 else 0) + NullBytes(bs[1..])
  }

  /** `f'{b:02x}'`. */
  function HexPair(b: byte): (r: string)
    ensures |r| == 2 && IsHexDigit(r[0]) && IsHexDigit(r[1])
  {
    [HexDigit(b as int / 16), HexDigit(b as int % 16)]
  }

  /** `''.join(f'{b:02x}' for b in bs)`. */
  function HexString(bs: seq<byte>): (r: string)
    ensures |r| == 2 * |bs|
    ensures forall i :: 0 <= i < |r| ==> IsHexDigit(r[i])
  {
    if bs == [] then "" else HexPair(bs[0]) + HexString(bs[1..])
  }

  /** Lower-casing leaves a string of lower-case hex digits alone. */
  lemma LowerHexDigits(s: string)
    requires forall i :: 0 <= i < |s| ==> IsHexDigit(s[i])
    ensures Lower(s) == s
  {
    assert forall i :: 0 <= i < |s| ==> Lower(s)[i] == s[i];
  }

  /** A byte printed as two hex digits parses back to itself. */
  lemma HexPairRoundTrip(b: byte)
    ensures IsHexToken(HexPair(b)) && TokenValue(HexPair(b)) == b
  {
    var p := HexPair(b);
    assert LowerChar(p[0]) == p[0] && LowerChar(p[1]) == p[1];
    assert HexValue(p[0]) == b as int / 16 && HexValue(p[1]) == b as int % 16;
  }

  lemma HexPairInjective(a: byte, b: byte)
    requires HexPair(a) == HexPair(b)
    ensures a == b
  {
    HexPairRoundTrip(a);
    HexPairRoundTrip(b);
  }

  /** `[f'{b:02x}' for b in bs]`. */
  function HexPairs(bs: seq<byte>): (r: seq<string>)
    ensures |r| == |bs| && forall i :: 0 <= i < |bs| ==> r[i] == HexPair(bs[i])
  {
    if bs == [] then [] else [HexPair(bs[0])] + HexPairs(bs[1..])
  }

  /** One line of a dump: an offset token, then each byte as two hex digits, separated by spaces. */
  function DumpLine(offset: string, bs: seq<byte>): string
  {
    Join([offset] + HexPairs(bs), " ")
  }

  lemma {:induction false} TokenBytesOfPairs(bs: seq<byte>)
    ensures TokenBytes(HexPairs(bs)) == bs
  {
    if bs != [] {
      HexPairRoundTrip(bs[0]);
      assert HexPairs(bs)[1..] == HexPairs(bs[1..]);
      TokenBytesOfPairs(bs[1..]);
    }
  }

  /** A dump line splits back into its offset and hex pairs, is one line, and is not blank. */
  lemma DumpLineWords(offset: string, bs: seq<byte>)
    requires IsWord(offset)
    ensures Words(DumpLine(offset, bs)) == [offset] + HexPairs(bs)
    ensures '\n' !in DumpLine(offset, bs) && !IsBlank(DumpLine(offset, bs))
  {
    var ws := [offset] + HexPairs(bs);
    forall i | 0 <= i < |ws| ensures IsWord(ws[i]) && '\n' !in ws[i] {
      if i > 0 {
        assert ws[i] == HexPair(bs[i - 1]);
      }
    }
    WordsJoin(ws);
    var line := DumpLine(offset, bs);
    JoinAvoids(ws, " ", '\n');
    assert line[0] == offset[0];
  }

  /** The bytes of a dump line are read back exactly. */
  lemma DumpLineRoundTrip(offset: string, bs: seq<byte>)
    requires IsWord(offset)
    ensures HexBytes(DumpLine(offset, bs)) == bs
  {
    var line := DumpLine(offset, bs);
    DumpLineWords(offset, bs);
    SplitWithoutSep(line, '\n');
    TokenBytesOfPairs(bs);
    assert ([offset] + HexPairs(bs))[1..] == HexPairs(bs);
    assert LineBytes(line) == bs;
    assert LinesBytes([line]) == LineBytes(line) + LinesBytes([]);
  }

  /** The hex text of `bs` starts with the hex text of `m` exactly when `bs` starts with `m`. */
  lemma {:induction false} HexPrefix(bs: seq<byte>, m: seq<byte>)
    ensures StartsWith(HexString(bs), HexString(m)) <==> StartsWith(bs, m)
  {
    if m != [] && bs != [] {
      HexPrefix(bs[1..], m[1..]);
      var hb, hm := HexString(bs), HexString(m);
      var tb, tm := HexString(bs[1..]), HexString(m[1..]);
      assert hb == HexPair(bs[0]) + tb;
      assert hm == HexPair(m[0]) + tm;
      if StartsWith(hb, hm) {
        assert HexPair(bs[0]) == hb[..2] == hm[..2] == HexPair(m[0]);
        HexPairInjective(bs[0], m[0]);
        assert tb[..|tm|] == hb[2..|hm|] == hm[2..] == tm;
        assert bs == [bs[0]] + bs[1..] && m == [m[0]] + m[1..];
      }
      if StartsWith(bs, m) {
        assert bs[1..][..|m[1..]|] == m[1..];
        assert bs[0] == m[0];
        assert hb[..|hm|] == HexPair(bs[0]) + tb[..|tm|];
      }
    }
  }

  /* ---------------- Magic signatures ---------------- */

  /** The signatures `_analyze_hex_patterns` looks for, in dict order. */
  const MagicTable: seq<(string, string)> := [
    ("7f454c46", "ELF"),
    ("4d5a", "PE/DOS"),
    ("504b0304", "ZIP"),
    ("cafebabe", "Java Class"),
    ("89504e47", "PNG")]

  const ElfMagic: seq<byte> := [0x7f, 0x45, 0x4c, 0x46]

  /** `hex_str.lower().startswith(magic.lower())`. */
  predicate MagicMatches(hex: string, magic: string)
  {
    StartsWith(Lower(hex), Lower(magic))
  }

  function MagicFrom(hex: string, table: seq<(string, string)>): (r: seq<string>)
    ensures |r| <= |table|
    ensures forall i :: 0 <= i < |r| ==> exists j :: 0 <= j < |table| && r[i] == table[j].1
  {
    if table == [] then []
    else (if MagicMatches(hex, table[0].0) then [table[0].1] else []) + MagicFrom(hex, table[1..])
  }

  /** `magic_signatures`: the file types whose magic the first twenty bytes start with. */
  function MagicSignatures(bs: seq<byte>): seq<string>
  {
    MagicFrom(HexString(Take(bs, 20)), MagicTable)
  }

  /** A matching magic fixes the first character of the lower-cased text. */
  lemma MagicHead(hex: string, magic: string)
    requires magic != [] && MagicMatches(hex, magic)
    ensures hex != [] && LowerChar(hex[0]) == LowerChar(magic[0])
  {
    assert Lower(hex)[0] == Lower(magic)[0];
  }

  /** A table whose magics begin with pairwise different characters reports at most one match. */
  lemma {:induction false} AtMostOneMatch(hex: string, table: seq<(string, string)>)
    requires forall i :: 0 <= i < |table| ==> table[i].0 != []
    requires forall i, j :: 0 <= i < j < |table| ==> LowerChar(table[i].0[0]) != LowerChar(table[j].0[0])
    ensures |MagicFrom(hex, table)| <= 1
    ensures MagicFrom(hex, table) != [] ==>
              hex != [] && exists i :: 0 <= i < |table| && LowerChar(hex[0]) == LowerChar(table[i].0[0])
  {
    if table != [] {
      var rest := table[1..];
      AtMostOneMatch(hex, rest);
      if MagicMatches(hex, table[0].0) {
        MagicHead(hex, table[0].0);
        forall i | 0 <= i < |rest| ensures LowerChar(hex[0]) != LowerChar(rest[i].0[0]) {
          assert rest[i] == table[i + 1];
        }
      } else if MagicFrom(hex, rest) != [] {
        var i :| 0 <= i < |rest| && LowerChar(hex[0]) == LowerChar(rest[i].0[0]);
        assert rest[i] == table[i + 1];
      }
    }
  }

  /** The five magics begin with five different hex digits, so at most one signature is reported. */
  lemma AtMostOneMagic(bs: seq<byte>)
    ensures |MagicSignatures(bs)| <= 1
  {
    var t := MagicTable;
    assert t[0].0[0] == '7' && t[1].0[0] == '4' && t[2].0[0] == '5' && t[3].0[0] == 'c' && t[4].0[0] == '8';
    AtMostOneMatch(HexString(Take(bs, 20)), t);
  }

  lemma ElfMagicText()
    ensures HexString(ElfMagic) == MagicTable[0].0
  {
    assert HexPair(0x7f) == "7f" && HexPair(0x45) == "45" && HexPair(0x4c) == "4c" && HexPair(0x46) == "46";
    assert ElfMagic == [0x7f] + [0x45, 0x4c, 0x46];
  }

  /** Only the first entry of the table is named "ELF". */
  lemma ElfEntry(hex: string)
    ensures "ELF" in MagicFrom(hex, MagicTable) <==> MagicMatches(hex, MagicTable[0].0)
  {
    var t := MagicTable;
    assert t[0].1 == "ELF";
    assert t[1].1[0] == 'P' && t[2].1[0] == 'Z' && t[3].1[0] == 'J' && t[4].1[0] == 'P';
    FirstEntryReported(hex, t);
  }

  /** The first entry's label is reported exactly when its magic matches, if no later label shares its first letter. */
  lemma FirstEntryReported(hex: string, table: seq<(string, string)>)
    requires table != [] && table[0].1 != []
    requires forall j :: 1 <= j < |table| ==> table[j].1 != [] && table[j].1[0] != table[0].1[0]
    ensures table[0].1 in MagicFrom(hex, table) <==> MagicMatches(hex, table[0].0)
  {
    var rest := table[1..];
    assert forall j :: 0 <= j < |rest| ==> rest[j] == table[j + 1];
    LabelNeverReported(hex, rest, table[0].1);
  }

  /** A label no entry of the table carries is never reported. */
  lemma {:induction false} LabelNeverReported(hex: string, table: seq<(string, string)>, name: string)
    requires name != [] && forall j :: 0 <= j < |table| ==> table[j].1 != [] && table[j].1[0] != name[0]
    ensures name !in MagicFrom(hex, table)
  {
    if table != [] {
      assert forall j :: 0 <= j < |table[1..]| ==> table[1..][j] == table[j + 1];
      LabelNeverReported(hex, table[1..], name);
    }
  }

  /** "ELF" is reported exactly when the bytes start with 7f 45 4c 46. */
  lemma ElfMagicDetected(bs: seq<byte>)
    ensures "ELF" in MagicSignatures(bs) <==> StartsWith(bs, ElfMagic)
  {
    var first := Take(bs, 20);
    var hex := HexString(first);
    ElfEntry(hex);
    LowerHexDigits(hex);
    ElfMagicText();
    LowerHexDigits(HexString(ElfMagic));
    HexPrefix(first, ElfMagic);
    StartsWithTake(bs, 20, ElfMagic);
  }
}
