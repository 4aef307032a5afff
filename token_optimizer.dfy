/**
 * `TokenOptimizer.optimize_prompt` of `cache_utils.py`: a prompt whose
 * estimated token count (a quarter of its length) exceeds the budget is cut
 * down to its keyword lines, in order, followed by as many of the other
 * lines, in order, as fit within three characters per token.
 */
module TokenOptimizer {
  import opened Text

  const ImportantKeywords: seq<string> := [
    "security", "vulnerability", "exploit", "buffer overflow", "malware", "analysis",
    "function", "binary", "address"]

  /** `any(keyword in line.lower() for keyword in important_keywords)`. */
  predicate IsImportant(line: string)
  {
    ContainsAny(Lower(line), ImportantKeywords)
  }

  function Important(lines: seq<string>): (r: seq<string>)
    ensures forall i :: 0 <= i < |r| ==> IsImportant(r[i])
  {
    if lines == [] then []
    else (if IsImportant(lines[0]) then [lines[0]] else []) + Important(lines[1..])
  }

  function Others(lines: seq<string>): (r: seq<string>)
    ensures forall i :: 0 <= i < |r| ==> !IsImportant(r[i])
  {
    if lines == [] then []
    else (if IsImportant(lines[0]) then [] else [lines[0]]) + Others(lines[1..])
  }

  /** Every line goes to exactly one of the two groups. */
  lemma {:induction false} PartitionSizes(lines: seq<string>)
    ensures |Important(lines)| + |Others(lines)| == |lines|
    ensures multiset(Important(lines)) + multiset(Others(lines)) == multiset(lines)
  {
    if lines != [] {
      PartitionSizes(lines[1..]);
      assert lines == [lines[0]] + lines[1..];
    }
  }

  function TotalLength(lines: seq<string>): nat
  {
    if lines == [] then 0 else TotalLength(lines[..|lines| - 1]) + |lines[|lines| - 1]|
  }

  /** How many of `others` the fill loop appends, starting from `current` characters. */
  function FitCount(others: seq<string>, current: int, target: int): (n: nat)
    ensures n <= |others|
    decreases |others|
  {
    if others == [] || current + |others[0]| >= target then 0
    else 1 + FitCount(others[1..], current + |others[0]|, target)
  }

  /**
   * The appended lines keep the running length under the target, and the
   * first line left out would have reached it.
   */
  lemma {:induction false} FitCountMeaning(others: seq<string>, current: int, target: int)
    ensures var n := FitCount(others, current, target);
            (n == 0 || current + TotalLength(others[..n]) < target) &&
            (n < |others| ==> current + TotalLength(others[..n]) + |others[n]| >= target)
    decreases |others|
  {
    var n := FitCount(others, current, target);
    if n > 0 {
      FitCountMeaning(others[1..], current + |others[0]|, target);
      TotalLengthCons(others, n);
      if n < |others| {
        assert others[1..][n - 1] == others[n];
      }
    } else {
      assert others[..0] == [];
    }
  }

  lemma {:induction false} TotalLengthCons(xs: seq<string>, n: nat)
    requires 1 <= n <= |xs|
    ensures TotalLength(xs[..n]) == |xs[0]| + TotalLength(xs[1..][..n - 1])
    decreases n
  {
    if n > 1 {
      TotalLengthCons(xs, n - 1);
      assert xs[..n][..n - 1] == xs[..n - 1];
      assert xs[1..][..n - 1][..n - 2] == xs[1..][..n - 2];
    } else {
      assert xs[..1][..0] == [];
    }
  }

  /** The lines `optimize_prompt` keeps when the prompt is over budget. */
  function KeptLines(lines: seq<string>, maxTokens: int): seq<string>
  {
    var important := Important(lines);
    var others := Others(lines);
    important + others[..FitCount(others, TotalLength(important), maxTokens * 3)]
  }

  /** The specification of `optimize_prompt`. */
  function Optimized(prompt: string, maxTokens: int): string
  {
    if |prompt| / 4 <= maxTokens then prompt
    else Join(KeptLines(Lines(prompt), maxTokens), "\n")
  }

  /**
   * What an over-budget prompt keeps: every keyword line, in order, then a
   * prefix of the other lines; together they stay under `3 * maxTokens`
   * characters whenever any other line is kept, and the first other line left
   * out would not have fit.
   */
  lemma KeptLinesShape(lines: seq<string>, maxTokens: int)
    ensures var kept := KeptLines(lines, maxTokens);
            var important := Important(lines);
            var others := Others(lines);
            var n := |kept| - |important|;
            |important| <= |kept| && kept[..|important|] == important &&
            0 <= n <= |others| && kept[|important|..] == others[..n] &&
            (n > 0 ==> TotalLength(important) + TotalLength(others[..n]) < maxTokens * 3) &&
            (n < |others| ==> TotalLength(important) + TotalLength(others[..n]) + |others[n]| >= maxTokens * 3)
  {
    var important := Important(lines);
    var kept := KeptLines(lines, maxTokens);
    FitCountMeaning(Others(lines), TotalLength(important), maxTokens * 3);
    assert kept[..|important|] == important;
  }

  /** A prompt within budget comes back unchanged. */
  lemma WithinBudgetUnchanged(prompt: string, maxTokens: int)
    requires |prompt| / 4 <= maxTokens
    ensures Optimized(prompt, maxTokens) == prompt
  {
  }

  /** A prompt whose lines all carry a keyword is kept whole, whatever the budget. */
  lemma {:induction false} AllImportantKept(prompt: string, maxTokens: int)
    requires forall i :: 0 <= i < |Lines(prompt)| ==> IsImportant(Lines(prompt)[i])
    ensures Optimized(prompt, maxTokens) == prompt
  {
    var lines := Lines(prompt);
    if |prompt| / 4 > maxTokens {
      AllImportantIsIdentity(lines);
      assert KeptLines(lines, maxTokens) == lines;
      JoinSplit(prompt, '\n');
    }
  }

  lemma {:induction false} AllImportantIsIdentity(lines: seq<string>)
    requires forall i :: 0 <= i < |lines| ==> IsImportant(lines[i])
    ensures Important(lines) == lines && Others(lines) == []
  {
    if lines != [] {
      AllImportantIsIdentity(lines[1..]);
    }
  }

  /** The partition loop of `optimize_prompt`. */
  method Partition(lines: seq<string>) returns (importantLines: seq<string>, otherLines: seq<string>)
    ensures importantLines == Important(lines) && otherLines == Others(lines)
  {
    importantLines := [];
    otherLines := [];
    var i := 0;
    while i < |lines|
      invariant 0 <= i <= |lines|
      invariant importantLines + Important(lines[i..]) == Important(lines)
      invariant otherLines + Others(lines[i..]) == Others(lines)
    {
      var line := lines[i];
      assert lines[i..][0] == line && lines[i..][1..] == lines[i + 1..];
      if IsImportant(line) {
        assert Important(lines[i..]) == [line] + Important(lines[i + 1..]);
        assert Others(lines[i..]) == Others(lines[i + 1..]);
        importantLines := importantLines + [line];
      } else {
        assert Important(lines[i..]) == Important(lines[i + 1..]);
        assert Others(lines[i..]) == [line] + Others(lines[i + 1..]);
        otherLines := otherLines + [line];
      }
      i := i + 1;
    }
  }

  /** `sum(len(line) for line in lines)`. */
  method SumLengths(lines: seq<string>) returns (total: nat)
    ensures total == TotalLength(lines)
  {
    total := 0;
    var k := 0;
    while k < |lines|
      invariant 0 <= k <= |lines|
      invariant total == TotalLength(lines[..k])
    {
      assert lines[..k + 1][..k] == lines[..k];
      total := total + |lines[k]|;
      k := k + 1;
    }
    assert lines[..k] == lines;
  }

  /** The fill loop: appends other lines while the running length stays under the target. */
  method Fill(resultLines: seq<string>, otherLines: seq<string>, currentLength: int, targetLength: int)
    returns (filled: seq<string>)
    ensures filled == resultLines + otherLines[..FitCount(otherLines, currentLength, targetLength)]
  {
    filled := resultLines;
    var current := currentLength;
    var j := 0;
    while j < |otherLines| && current + |otherLines[j]| < targetLength
      invariant 0 <= j <= |otherLines|
      invariant filled == resultLines + otherLines[..j]
      invariant FitCount(otherLines, currentLength, targetLength) == j + FitCount(otherLines[j..], current, targetLength)
    {
      assert otherLines[..j + 1] == otherLines[..j] + [otherLines[j]];
      assert otherLines[j..][1..] == otherLines[j + 1..];
      assert FitCount(otherLines[j..], current, targetLength) ==
             1 + FitCount(otherLines[j + 1..], current + |otherLines[j]|, targetLength);
      filled := filled + [otherLines[j]];
      current := current + |otherLines[j]|;
      j := j + 1;
    }
  }

  /** `optimize_prompt`. */
  method OptimizePrompt(prompt: string, maxTokens: int) returns (optimized: string)
    ensures optimized == Optimized(prompt, maxTokens)
  {
    if |prompt| / 4 <= maxTokens {
      return prompt;
    }
    var lines := Lines(prompt);
    var importantLines, otherLines := Partition(lines);
    var currentLength := SumLengths(importantLines);
    var resultLines := Fill(importantLines, otherLines, currentLength, maxTokens * 3);
    optimized := Join(resultLines, "\n");
  }
}
