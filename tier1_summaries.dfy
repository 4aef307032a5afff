/**
 * The summaries `tier1_tools.py` attaches to objdump and readelf output
 * (`_summarize_objdump_output`, `_summarize_readelf_output`): line counts and,
 * for ELF headers, the class and machine fields.
 */
module Tier1Summaries {
  import opened Wrappers
  import opened Text
  import opened Json

  /** A summary dict: counts as `Int`, header fields as `Str`. */
  type Summary = map<string, Value>

  /* ---------------- objdump ---------------- */

  /** A section-table line: not blank, not the `Idx` or `Section` heading. */
  predicate SectionTableLine(line: string)
  {
    !IsBlank(line) && !StartsWith(line, "Idx") && !StartsWith(line, "Section")
  }

  /** A symbol-table line: not blank, not the `SYMBOL TABLE` heading. */
  predicate SymbolTableLine(line: string)
  {
    !IsBlank(line) && !StartsWith(line, "SYMBOL")
  }

  predicate UndefinedSymbol(line: string)
  {
    Contains(line, "*UND*")
  }

  /** A disassembly line: holds a colon and a digit. */
  predicate InstructionLine(line: string)
  {
    Contains(line, ":") && HasDigit(line)
  }

  /** `_summarize_objdump_output`. */
  function ObjdumpSummary(analysisType: string, output: string): Summary
  {
    var lines := Lines(output);
    if analysisType == "headers" then
      map["section_count" := Int(|Filter(lines, SectionTableLine)|)]
    else if analysisType == "symbols" then
      var symbols := Filter(lines, SymbolTableLine);
      map["symbol_count" := Int(|symbols|), "external_symbols" := Int(|Filter(symbols, UndefinedSymbol)|)]
    else if analysisType == "disassemble" then
      map["instruction_count" := Int(|Filter(lines, InstructionLine)|)]
    else map[]
  }

  /**
   * Which counts each analysis gets: `sections`, `relocs` and `dynamic` (and
   * any unknown type) get an empty summary, although `sections` runs the
   * same `-h` command as `headers`.
   */
  lemma ObjdumpSummaryKeys(analysisType: string, output: string)
    ensures var r := ObjdumpSummary(analysisType, output);
      && (analysisType == "headers" ==> r.Keys == {"section_count"})
      && (analysisType == "symbols" ==> r.Keys == {"symbol_count", "external_symbols"})
      && (analysisType == "disassemble" ==> r.Keys == {"instruction_count"})
      && (analysisType !in {"headers", "symbols", "disassemble"} ==> r == map[])
  {
  }

  /** Every count is at most the number of lines, and external symbols are among the symbols. */
  lemma ObjdumpCountsBounded(analysisType: string, output: string)
    ensures forall k :: k in ObjdumpSummary(analysisType, output) ==>
              ObjdumpSummary(analysisType, output)[k].Int? &&
              0 <= ObjdumpSummary(analysisType, output)[k].i <= |Lines(output)|
    ensures analysisType == "symbols" ==>
              ObjdumpSummary(analysisType, output)["external_symbols"].i <=
              ObjdumpSummary(analysisType, output)["symbol_count"].i
  {
  }

  /* ---------------- readelf ---------------- */

  /** A `readelf -S` section line: not blank and starting with two spaces and `[`. */
  predicate ElfSectionLine(line: string)
  {
    !IsBlank(line) && StartsWith(line, "  [")
  }

  /** A `readelf -s` symbol line: not blank, with a digit in its first five characters. */
  predicate ElfSymbolLine(line: string)
  {
    !IsBlank(line) && HasDigit(if |line| <= 5 then line else line[..5])
  }

  /** `line.split(":")[-1].strip()`. */
  function LastField(line: string): string
  {
    var parts := Split(line, ':');
    Strip(parts[|parts| - 1])
  }

  /**
   * What one header line sets: a line mentioning `Class:` sets the class,
   * otherwise one mentioning `Machine:` sets the machine.
   */
  function HeaderUpdate(line: string): Option<(string, string)>
  {
    if Contains(line, "Class:") then Some(("class", LastField(line)))
    else if Contains(line, "Machine:") then Some(("machine", LastField(line)))
    else None
  }

  /** The loop over the header lines, later lines overwriting earlier ones. */
  function HeaderFields(lines: seq<string>): (r: Summary)
    ensures r.Keys <= {"class", "machine"}
  {
    if lines == [] then map[]
    else
      var acc := HeaderFields(lines[..|lines| - 1]);
      var u := HeaderUpdate(lines[|lines| - 1]);
      if u.Some? then acc[u.value.0 := Str(u.value.1)] else acc
  }

  /** `_summarize_readelf_output`. */
  function ReadelfSummary(analysisType: string, output: string): Summary
  {
    var lines := Lines(output);
    if analysisType == "headers" then HeaderFields(lines)
    else if analysisType == "sections" then map["section_count" := Int(|Filter(lines, ElfSectionLine)|)]
    else if analysisType == "symbols" then map["symbol_count" := Int(|Filter(lines, ElfSymbolLine)|)]
    else map[]
  }

  predicate Sets(line: string, key: string)
  {
    HeaderUpdate(line).Some? && HeaderUpdate(line).value.0 == key
  }

  /** A field is absent exactly when no line sets it. */
  lemma {:induction false} HeaderFieldAbsent(lines: seq<string>, key: string)
    ensures key !in HeaderFields(lines) <==> forall j :: 0 <= j < |lines| ==> !Sets(lines[j], key)
    decreases |lines|
  {
    if lines != [] {
      var init := lines[..|lines| - 1];
      var last := lines[|lines| - 1];
      HeaderFieldAbsent(init, key);
      assert key in HeaderFields(lines) <==> key in HeaderFields(init) || Sets(last, key);
      if forall j :: 0 <= j < |lines| ==> !Sets(lines[j], key) {
        forall j | 0 <= j < |init| ensures !Sets(init[j], key) {
          assert init[j] == lines[j];
        }
        assert !Sets(lines[|lines| - 1], key);
      }
      if (forall j :: 0 <= j < |init| ==> !Sets(init[j], key)) && !Sets(last, key) {
        forall j | 0 <= j < |lines| ensures !Sets(lines[j], key) {
          if j < |init| {
            assert lines[j] == init[j];
          } else {
            assert j == |lines| - 1 && lines[j] == last;
          }
        }
      }
    }
  }

  /** A field holds the value set by the last line that sets it. */
  lemma {:induction false} HeaderFieldFromLastLine(lines: seq<string>, key: string, i: nat)
    requires i < |lines| && Sets(lines[i], key)
    requires forall j :: i < j < |lines| ==> !Sets(lines[j], key)
    ensures key in HeaderFields(lines) && HeaderFields(lines)[key] == Str(HeaderUpdate(lines[i]).value.1)
    decreases |lines|
  {
    if i < |lines| - 1 {
      var init := lines[..|lines| - 1];
      assert forall j :: 0 <= j < |init| ==> init[j] == lines[j];
      HeaderFieldFromLastLine(init, key, i);
    }
  }

  /** Only lines mentioning `Class:` set the class, and a line mentioning both sets only the class. */
  lemma HeaderUpdateKeys(line: string)
    ensures Sets(line, "class") <==> Contains(line, "Class:")
    ensures Sets(line, "machine") <==> !Contains(line, "Class:") && Contains(line, "Machine:")
  {
  }

  /** Section and symbol counts are at most the number of lines. */
  lemma ReadelfCountsBounded(analysisType: string, output: string)
    ensures analysisType in {"sections", "symbols"} ==>
              ReadelfSummary(analysisType, output).Keys == {if analysisType == "sections" then "section_count" else "symbol_count"}
    ensures forall k :: k in ReadelfSummary(analysisType, output) && analysisType != "headers" ==>
              0 <= ReadelfSummary(analysisType, output)[k].i <= |Lines(output)|
    ensures analysisType !in {"headers", "sections", "symbols"} ==> ReadelfSummary(analysisType, output) == map[]
  {
  }
}
