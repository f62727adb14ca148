/** The text post-processing of `ocr_line_parse` (ocr_recognition.py, lines 123-209).
    Pass 1 reads the OCR text line by line and gives each field the first non-empty
    value its pattern yields. When "Begrenzungsbox Länge" comes out as the known
    misreading "10.000000", a second OCR text is scanned for that field alone. The
    field patterns are a parameter (`Matcher`), and so is the "{:.6f}" rendering. */
module OcrParse {
  import opened Strings
  import opened Seqs
  import opened NumberText
  import opened FieldValues

  /** The fields in the order the patterns are tried. */
  const Keys: seq<string> := [
    "Elementtyp", "Elementnummer", "Tiefe", "Durchmesser", "Begrenzungsbox Breite",
    "Begrenzungsbox Länge", "Feature-Typ", "Name", "Kleinster Radius"]

  const NumericKeys: set<string> :=
    {"Tiefe", "Durchmesser", "Begrenzungsbox Breite", "Begrenzungsbox Länge", "Kleinster Radius"}

  const BoxLength := "Begrenzungsbox Länge"

  /** The value the first pass is known to misread the box length as. */
  const Problematic := "10.000000"

  /** The pattern of field `key` applied to a line: its first group, if it matches. */
  type Matcher = (string, string) -> Option<string>

  /** The results as a field-to-optional-text mapping. */
  type Results = map<string, Option<string>>

  // ---------------------------------------------------------------------------------
  // `str.splitlines`

  /** The line boundaries of `str.splitlines`. */
  predicate IsLineBreak(c: char) {
    c == '\n' || c == '\r' || c == '\U{000B}' || c == '\U{000C}' || c == '\U{001C}' || c == '\U{001D}'
    || c == '\U{001E}' || c == '\U{0085}' || c == '\U{2028}' || c == '\U{2029}'
  }

  function BreakIndex(s: string): (k: nat)
    ensures k <= |s|
    ensures k < |s| ==> IsLineBreak(s[k])
    ensures forall j | 0 <= j < k :: !IsLineBreak(s[j])
    decreases |s|
  {
    if s == [] || IsLineBreak(s[0]) then 0 else 1 + BreakIndex(s[1..])
  }

  /** `s.splitlines()`: the lines without their ends; "\r\n" ends one line, and a final
      line end does not open an empty line. */
  function SplitLines(s: string): (lines: seq<string>)
    ensures forall i, j | 0 <= i < |lines| && 0 <= j < |lines[i]| :: !IsLineBreak(lines[i][j])
    ensures s == [] <==> lines == []
    decreases |s|
  {
    if s == [] then []
    else
      var k := BreakIndex(s);
      if k == |s| then [s]
      else
        var next := if s[k] == '\r' && k + 1 < |s| && s[k + 1] == '\n' then k + 2 else k + 1;
        [s[..k]] + SplitLines(s[next..])
  }

  /** A line end: one boundary character, or "\r\n". */
  predicate IsLineEnd(e: string) {
    (|e| == 1 && IsLineBreak(e[0])) || e == "\r\n"
  }

  /** The line ends `splitlines` drops, one per line; the last line may have none. */
  function LineEnds(s: string): seq<string>
    decreases |s|
  {
    if s == [] then []
    else
      var k := BreakIndex(s);
      if k == |s| then [""]
      else
        var next := if s[k] == '\r' && k + 1 < |s| && s[k + 1] == '\n' then k + 2 else k + 1;
        [s[k..next]] + LineEnds(s[next..])
  }

  /** Each line followed by its end, all put together. */
  function Joined(lines: seq<string>, ends: seq<string>): string
    requires |lines| == |ends|
  {
    if lines == [] then [] else lines[0] + ends[0] + Joined(lines[1..], ends[1..])
  }

  /** The lines are the pieces of the text between its line ends: put back together with
      their ends they give the text; every end is a line end, except that the last line
      may have none (and is then not empty); and a "\r" followed by "\n" is one end. */
  lemma {:induction false} SplitLinesJoin(s: string)
    ensures var lines, ends := SplitLines(s), LineEnds(s);
      && |ends| == |lines|
      && Joined(lines, ends) == s
      && (forall i | 0 <= i < |ends| - 1 :: IsLineEnd(ends[i]))
      && (|ends| > 0 ==> IsLineEnd(ends[|ends| - 1]) || (ends[|ends| - 1] == [] && lines[|lines| - 1] != []))
      && forall i | 0 <= i < |ends| - 1 :: ends[i] == "\r" ==> !(lines[i + 1] == [] && ends[i + 1] == "\n")
    decreases |s|
  {
    if s != [] {
      var k := BreakIndex(s);
      if k == |s| {
        assert SplitLines(s) == [s] && LineEnds(s) == [""];
        assert Joined([s], [""]) == s by {
          assert Joined([s], [""]) == s + "" + Joined([], []);
        }
      } else {
        var next := if s[k] == '\r' && k + 1 < |s| && s[k + 1] == '\n' then k + 2 else k + 1;
        var rest := s[next..];
        assert SplitLines(s) == [s[..k]] + SplitLines(rest) && LineEnds(s) == [s[k..next]] + LineEnds(rest);
        SplitLinesJoin(rest);
        JoinStep(s, k, next, SplitLines(rest), LineEnds(rest));
      }
    }
  }

  /** One more line and its end in front of the split of the rest. */
  lemma JoinStep(s: string, k: int, next: int, lines: seq<string>, ends: seq<string>)
    requires 0 <= k < |s| && IsLineBreak(s[k])
    requires next == if s[k] == '\r' && k + 1 < |s| && s[k + 1] == '\n' then k + 2 else k + 1
    requires |ends| == |lines| && Joined(lines, ends) == s[next..]
    requires forall i | 0 <= i < |ends| - 1 :: IsLineEnd(ends[i])
    requires |ends| > 0 ==> IsLineEnd(ends[|ends| - 1]) || (ends[|ends| - 1] == [] && lines[|lines| - 1] != [])
    requires forall i | 0 <= i < |ends| - 1 :: ends[i] == "\r" ==> !(lines[i + 1] == [] && ends[i + 1] == "\n")
    ensures var lines', ends' := [s[..k]] + lines, [s[k..next]] + ends;
      && |ends'| == |lines'|
      && Joined(lines', ends') == s
      && (forall i | 0 <= i < |ends'| - 1 :: IsLineEnd(ends'[i]))
      && (IsLineEnd(ends'[|ends'| - 1]) || (ends'[|ends'| - 1] == [] && lines'[|lines'| - 1] != []))
      && forall i | 0 <= i < |ends'| - 1 :: ends'[i] == "\r" ==> !(lines'[i + 1] == [] && ends'[i + 1] == "\n")
  {
    var lines', ends' := [s[..k]] + lines, [s[k..next]] + ends;
    assert lines'[1..] == lines && ends'[1..] == ends;
    assert Joined(lines', ends') == s[..k] + s[k..next] + s[next..];
    assert s[..k] + s[k..next] + s[next..] == s;
    assert IsLineEnd(ends'[0]);
  }

  /** Text without line ends is one line. */
  lemma SingleLine(s: string)
    requires s != [] && forall j | 0 <= j < |s| :: !IsLineBreak(s[j])
    ensures SplitLines(s) == [s]
  {
  }

  // ---------------------------------------------------------------------------------
  // Pass 1 (lines 156-178)

  /** The first run of digits, `re.search(r"(\d+)", s)`. */
  function FirstDigitRun(s: string): (r: Option<string>)
    ensures r.None? <==> !HasDigit(s)
    ensures r.Some? ==> |r.value| > 0 && AllDigits(r.value) && Contains(s, r.value)
    decreases |s|
  {
    if s == [] then None
    else if IsDigit(s[0]) then
      var e := DigitRunEnd(s, 0);
      assert OccursAt(s, s[..e], 0);
      Some(s[..e])
    else
      var r := FirstDigitRun(s[1..]);
      assert HasDigit(s) <==> HasDigit(s[1..]) by {
        if HasDigit(s) {
          var i :| 0 <= i < |s| && IsDigit(s[i]);
          assert s[1..][i - 1] == s[i];
        }
        if HasDigit(s[1..]) {
          var i :| 0 <= i < |s[1..]| && IsDigit(s[1..][i]);
          assert s[i + 1] == s[1..][i];
        }
      }
      if r.Some? then ContainsTail(s, r.value); r else r
  }

  /** `r` occurs at `k`, no digit comes before it and none right after it: a digit
      string with this property is the first run of digits, taken whole. */
  predicate WholeRunAt(s: string, r: string, k: int) {
    && OccursAt(s, r, k)
    && (forall j | 0 <= j < k :: !IsDigit(s[j]))
    && (k + |r| == |s| || !IsDigit(s[k + |r|]))
  }

  /** The run found is the leftmost one and is taken whole: no digit comes before it and
      none right after it. */
  lemma {:induction false} FirstDigitRunSpec(s: string)
    ensures FirstDigitRun(s).Some? ==>
      var r := FirstDigitRun(s).value;
      exists k :: WholeRunAt(s, r, k)
    decreases |s|
  {
    if s != [] {
      if IsDigit(s[0]) {
        var r := s[..DigitRunEnd(s, 0)];
        assert FirstDigitRun(s) == Some(r) by {
          FirstDigitRunStep(s);
        }
        RunAtStart(s, r);
      } else {
        assert FirstDigitRun(s) == FirstDigitRun(s[1..]) by {
          FirstDigitRunStep(s);
        }
        if FirstDigitRun(s).Some? {
          FirstDigitRunSpec(s[1..]);
          RunInTail(s, FirstDigitRun(s).value);
        }
      }
    }
  }

  lemma FirstDigitRunStep(s: string)
    requires s != []
    ensures IsDigit(s[0]) ==> FirstDigitRun(s) == Some(s[..DigitRunEnd(s, 0)])
    ensures !IsDigit(s[0]) ==> FirstDigitRun(s) == FirstDigitRun(s[1..])
  {
  }

  lemma RunAtStart(s: string, r: string)
    requires 0 < |s| && r == s[..DigitRunEnd(s, 0)]
    ensures exists k :: WholeRunAt(s, r, k)
  {
    assert WholeRunAt(s, r, 0);
  }

  lemma RunInTail(s: string, r: string)
    requires |s| > 0 && !IsDigit(s[0])
    requires exists k :: WholeRunAt(s[1..], r, k)
    ensures exists k :: WholeRunAt(s, r, k)
  {
    var t := s[1..];
    var k :| WholeRunAt(t, r, k);
    assert s[k + 1..k + 1 + |r|] == s[1..][k..k + |r|];
    forall j | 0 < j < k + 1 ensures !IsDigit(s[j]) {
      assert s[j] == s[1..][j - 1];
    }
    if k + 1 + |r| < |s| {
      assert s[k + 1 + |r|] == s[1..][k + |r|];
    }
    assert WholeRunAt(s, r, k + 1);
  }

  /** What a field's raw match becomes (lines 166-173): a number for the numeric fields
      (the diameter as found, the others rendered with six decimals), the first digit
      run for "Elementnummer", and the text itself for the rest. */
  function ParsedValue(key: string, raw: string, render: real -> string): Option<string> {
    if key in NumericKeys then
      ParseNumber(Some(raw), if key == "Durchmesser" then Unformatted else Formatted(render))
    else if key == "Elementnummer" then
      match FirstDigitRun(raw)
      case Some(d) => Some(d)
      case None => Some(raw)
    else if raw != "" then Some(raw)
    else None
  }

  /** A numeric field (lines 167-168): the diameter is the first number token of the
      cleaned text, the other fields that number's value rendered with six decimals, and
      a value without a digit keeps its cleaned text, or nothing when blank. */
  lemma NumericParsedValue(key: string, raw: string, render: real -> string)
    requires key in NumericKeys
    ensures key == "Durchmesser" && HasDigit(raw) ==>
      && ParsedValue(key, raw, render).Some?
      && ParsedValue(key, raw, render) == FindNumber(CleanNumber(raw))
      && IsNumberToken(ParsedValue(key, raw, render).value)
    ensures key != "Durchmesser" && HasDigit(raw) ==>
      && FindNumber(CleanNumber(raw)).Some?
      && ParseFloat(FindNumber(CleanNumber(raw)).value).Some?
      && ParsedValue(key, raw, render) == Some(render(ParseFloat(FindNumber(CleanNumber(raw)).value).value))
    ensures !HasDigit(raw) ==>
      ParsedValue(key, raw, render) == if IsBlank(raw) then None else Some(CleanNumber(raw))
  {
    var f := if key == "Durchmesser" then Unformatted else Formatted(render);
    assert ParsedValue(key, raw, render) == ParseNumber(Some(raw), f);
    if HasDigit(raw) {
      if key == "Durchmesser" {
        UnformattedIsFirstMatch(raw);
      } else {
        FormattedRendersValue(raw, render);
      }
    } else {
      NoDigitGivesCleaned(raw, f);
    }
  }

  /** "Elementnummer" keeps the first whole run of digits of its match, or the match itself
      when it has no digit; every other text field is stored as found when non-empty
      (lines 169-173). */
  lemma TextParsedValue(key: string, raw: string, render: real -> string)
    requires key !in NumericKeys
    ensures key == "Elementnummer" && HasDigit(raw) ==>
      && ParsedValue(key, raw, render).Some?
      && var d := ParsedValue(key, raw, render).value;
         && |d| > 0 && AllDigits(d)
         && exists k :: WholeRunAt(raw, d, k)
    ensures key == "Elementnummer" && !HasDigit(raw) ==> ParsedValue(key, raw, render) == Some(raw)
    ensures key != "Elementnummer" ==>
      ParsedValue(key, raw, render) == if raw == "" then None else Some(raw)
  {
    if key == "Elementnummer" {
      FirstDigitRunSpec(raw);
    }
  }

  /** A value is stored when it is present and not blank (line 175). */
  predicate Storable(v: Option<string>) {
    v.Some? && Strip(v.value) != ""
  }

  /** What one line gives field `key` in pass 1, if anything. */
  function LineValue(key: string, line: string, m: Matcher, render: real -> string): Option<string> {
    var l := Strip(line);
    if l == "" then None
    else match m(key, l)
      case None => None
      case Some(g) =>
        var v := ParsedValue(key, Strip(g), render);
        if Storable(v) then v else None
  }

  /** The value field `key` ends up with after `lines`: the first line that gives one. */
  function FirstValue(key: string, lines: seq<string>, m: Matcher, render: real -> string): Option<string> {
    FirstSome(lines, (line: string) => LineValue(key, line, m, render))
  }

  /** Every field keeps the first value found: later lines never change it, and a field
      without a value takes the next line's (lines 158-162, 175-177). */
  lemma FirstValueStep(key: string, lines: seq<string>, line: string, m: Matcher, render: real -> string)
    ensures FirstValue(key, lines + [line], m, render) ==
      if FirstValue(key, lines, m, render).Some? then FirstValue(key, lines, m, render)
      else LineValue(key, line, m, render)
  {
    FirstSomeSnoc(lines, line, (l: string) => LineValue(key, l, m, render));
  }

  /** The stored value of a field came from some line, is never blank, and no earlier
      line gave that field a value; a field stays `None` exactly when no line gives it one. */
  lemma FirstValueSpec(key: string, lines: seq<string>, m: Matcher, render: real -> string)
    ensures FirstValue(key, lines, m, render).Some? ==>
      && Storable(FirstValue(key, lines, m, render))
      && exists k | 0 <= k < |lines| ::
           && LineValue(key, lines[k], m, render) == FirstValue(key, lines, m, render)
           && forall j | 0 <= j < k :: LineValue(key, lines[j], m, render).None?
    ensures FirstValue(key, lines, m, render).None? <==>
      forall k | 0 <= k < |lines| :: LineValue(key, lines[k], m, render).None?
  {
    var f := (l: string) => LineValue(key, l, m, render);
    FirstSomeSpec(lines, f);
    if FirstValue(key, lines, m, render).Some? {
      var k :| 0 <= k < |lines| && f(lines[k]) == FirstSome(lines, f) && forall j | 0 <= j < k :: f(lines[j]).None?;
      assert LineValue(key, lines[k], m, render) == FirstValue(key, lines, m, render);
    }
  }

  /** Blank lines give nothing (line 160). */
  lemma BlankLineGivesNothing(key: string, line: string, m: Matcher, render: real -> string)
    requires IsBlank(line)
    ensures LineValue(key, line, m, render) == None
  {
  }

  /** The pass-1 results after some lines: each field's first value. */
  function Pass1Prefix(lines: seq<string>, m: Matcher, render: real -> string): (r: Results)
    ensures r.Keys == set k | k in Keys
  {
    map k | k in Keys :: FirstValue(k, lines, m, render)
  }

  /** The pass-1 results of a text. */
  function Pass1(text: string, m: Matcher, render: real -> string): Results {
    Pass1Prefix(SplitLines(text), m, render)
  }

  /** The fields after one line: each field without a value takes the line's value. */
  function LineStep(results: Results, line: string, m: Matcher, render: real -> string): Results {
    map k | k in results :: if results[k].Some? then results[k] else LineValue(k, line, m, render)
  }

  /** Pass 1 as the source runs it: for each non-blank line, try every field that has no
      value yet and store the first storable value. */
  method ParsePass1(text: string, m: Matcher, render: real -> string) returns (results: Results)
    ensures results == Pass1(text, m, render)
  {
    results := map k | k in Keys :: None;
    var processed: set<string> := {};
    var lines := SplitLines(text);
    assert results == Pass1Prefix(lines[..0], m, render);
    for i := 0 to |lines|
      invariant results == Pass1Prefix(lines[..i], m, render)
      invariant forall k | k in results :: k in processed <==> results[k].Some?
    {
      Pass1PrefixStep(lines[..i], lines[i], m, render);
      assert lines[..i + 1] == lines[..i] + [lines[i]];
      var line := Strip(lines[i]);
      if line == "" {
        LineStepBlank(results, lines[i], m, render);
        continue;
      }
      results, processed := TryFields(Keys, results, processed, line, lines[i], m, render);
    }
    assert lines[..|lines|] == lines;
  }

  lemma Pass1PrefixStep(lines: seq<string>, line: string, m: Matcher, render: real -> string)
    ensures Pass1Prefix(lines + [line], m, render) == LineStep(Pass1Prefix(lines, m, render), line, m, render)
  {
    forall k | k in Keys
      ensures FirstValue(k, lines + [line], m, render) ==
        if FirstValue(k, lines, m, render).Some? then FirstValue(k, lines, m, render)
        else LineValue(k, line, m, render)
    {
      FirstValueStep(k, lines, line, m, render);
    }
  }

  lemma LineStepBlank(results: Results, line: string, m: Matcher, render: real -> string)
    requires Strip(line) == ""
    ensures LineStep(results, line, m, render) == results
  {
  }

  /** One field on one line: a field without a value takes the line's value, if any. */
  function FieldStep(results: Results, key: string, line: string, m: Matcher, render: real -> string): Results
    requires key in results
  {
    if results[key].Some? then results
    else match LineValue(key, line, m, render)
      case None => results
      case Some(v) => results[key := Some(v)]
  }

  /** The fields `keys`, in order, on one line. */
  function FieldSteps(results: Results, keys: seq<string>, line: string, m: Matcher, render: real -> string): (r: Results)
    requires forall n | 0 <= n < |keys| :: keys[n] in results
    ensures r.Keys == results.Keys
    decreases |keys|
  {
    if keys == [] then results
    else FieldStep(FieldSteps(results, keys[..|keys| - 1], line, m, render), keys[|keys| - 1], line, m, render)
  }

  /** Trying the fields one by one is `LineStep` on those fields: order and repetition
      do not matter, since a field takes at most the one value this line offers it. */
  lemma {:induction false} FieldStepsSpec(results: Results, keys: seq<string>, line: string, m: Matcher, render: real -> string)
    requires forall n | 0 <= n < |keys| :: keys[n] in results
    ensures forall k | k in results ::
      FieldSteps(results, keys, line, m, render)[k] ==
        if k in keys && results[k].None? then LineValue(k, line, m, render) else results[k]
    decreases |keys|
  {
    if keys != [] {
      var init := keys[..|keys| - 1];
      FieldStepsSpec(results, init, line, m, render);
      forall k | k in results
        ensures FieldSteps(results, keys, line, m, render)[k] ==
          if k in keys && results[k].None? then LineValue(k, line, m, render) else results[k]
      {
        assert k in keys <==> k in init || k == keys[|keys| - 1];
      }
    }
  }

  /** Once every field has been tried, one line of pass 1 is done. */
  lemma FieldStepsAll(results: Results, keys: seq<string>, line: string, m: Matcher, render: real -> string)
    requires results.Keys == set k | k in keys
    ensures FieldSteps(results, keys, line, m, render) == LineStep(results, line, m, render)
  {
    FieldStepsSpec(results, keys, line, m, render);
  }

  /** The inner loop of pass 1: the fields `keys` (those of `Keys`), in order, on one
      stripped non-blank line. */
  method TryFields(keys: seq<string>, results: Results, processed: set<string>, line: string,
                   ghost original: string, m: Matcher, render: real -> string)
    returns (results': Results, processed': set<string>)
    requires line == Strip(original) && line != ""
    requires results.Keys == set k | k in keys
    requires forall k | k in results :: k in processed <==> results[k].Some?
    ensures results' == LineStep(results, original, m, render)
    ensures forall k | k in results' :: k in processed' <==> results'[k].Some?
  {
    results', processed' := results, processed;
    for j := 0 to |keys|
      invariant results' == FieldSteps(results, keys[..j], original, m, render)
      invariant forall k | k in results' :: k in processed' <==> results'[k].Some?
    {
      assert keys[..j + 1][..j] == keys[..j];
      results', processed' := TryField(results', processed', keys[j], line, original, m, render);
    }
    assert keys[..|keys|] == keys;
    FieldStepsAll(results, keys, original, m, render);
  }

  /** One field on one stripped, non-blank line (lines 162-177): a field that already
      has a value is skipped; otherwise the line's storable value, if any, is stored. */
  method TryField(results: Results, processed: set<string>, key: string, line: string,
                  ghost original: string, m: Matcher, render: real -> string)
    returns (results': Results, processed': set<string>)
    requires key in results && line == Strip(original) && line != ""
    requires forall k | k in results :: k in processed <==> results[k].Some?
    ensures results' == FieldStep(results, key, original, m, render)
    ensures forall k | k in results' :: k in processed' <==> results'[k].Some?
  {
    results', processed' := results, processed;
    if key in processed && results[key].Some? {
      return;
    }
    var value: Option<string> := None;
    var found := m(key, line);
    if found.Some? {
      var raw := Strip(found.value);
      var parsed := ParsedValue(key, raw, render);
      if parsed.Some? && Strip(parsed.value) != "" {
        value := parsed;
      }
    }
    LineValueOfStripped(key, original, line, m, render);
    assert value == LineValue(key, original, m, render);
    if value.Some? {
      results' := results[key := value];
      processed' := processed + {key};
    }
  }

  /** `LineValue` on a line whose stripped form is known. */
  lemma LineValueOfStripped(key: string, original: string, line: string, m: Matcher, render: real -> string)
    requires line == Strip(original) && line != ""
    ensures LineValue(key, original, m, render) ==
      match m(key, line)
      case None => None
      case Some(g) => if Storable(ParsedValue(key, Strip(g), render)) then ParsedValue(key, Strip(g), render) else None
  {
  }

  // ---------------------------------------------------------------------------------
  // The correction pass (lines 180-209)

  /** What one line of the second text offers as the box length: a non-empty number,
      rendered with six decimals, other than the misreading. */
  function CorrectionValue(line: string, m: Matcher, render: real -> string): Option<string> {
    match m(BoxLength, line)
    case None => None
    case Some(g) =>
      var v := ParseNumber(Some(Strip(g)), Formatted(render));
      if v.Some? && v.value != "" && v.value != Problematic then v else None
  }

  /** The first usable box length among `lines`. */
  function FirstCorrectionIn(lines: seq<string>, m: Matcher, render: real -> string): Option<string> {
    FirstSome(lines, (line: string) => CorrectionValue(line, m, render))
  }

  function FirstCorrection(text2: string, m: Matcher, render: real -> string): Option<string> {
    FirstCorrectionIn(SplitLines(text2), m, render)
  }

  predicate NeedsCorrection(results: Results) {
    BoxLength in results && results[BoxLength] == Some(Problematic)
  }

  /** The results after the correction pass; `text2` is `None` when the second OCR call
      raised, which leaves the results as they were. */
  function Corrected(results: Results, text2: Option<string>, m: Matcher, render: real -> string): Results {
    if NeedsCorrection(results) && text2.Some? && FirstCorrection(text2.value, m, render).Some? then
      results[BoxLength := FirstCorrection(text2.value, m, render)]
    else results
  }

  /** The correction pass as the source runs it: when the box length is the misreading
      and the second OCR call succeeded, its text replaces the value if it offers one. */
  method CorrectBoxLength(results: Results, text2: Option<string>, m: Matcher, render: real -> string)
    returns (out: Results)
    ensures out == Corrected(results, text2, m, render)
  {
    out := results;
    if NeedsCorrection(results) && text2.Some? {
      var value := ScanBoxLength(SplitLines(text2.value), m, render);
      if value.Some? {
        out := results[BoxLength := value];
      }
    }
  }

  /** The loop over the second text's lines, stopping at the first usable value. */
  method ScanBoxLength(lines: seq<string>, m: Matcher, render: real -> string) returns (value: Option<string>)
    ensures value == FirstCorrectionIn(lines, m, render)
  {
    var f := (line: string) => CorrectionValue(line, m, render);
    value := None;
    for i := 0 to |lines|
      invariant value.None? && FirstSome(lines[..i], f).None?
    {
      assert lines[..i + 1] == lines[..i] + [lines[i]];
      FirstSomeSnoc(lines[..i], lines[i], f);
      var candidate := BoxLengthCandidate(lines[i], m, render);
      if candidate.Some? {
        value := candidate;
        FirstSomePrefix(lines, i + 1, f);
        return;
      }
    }
    assert lines[..|lines|] == lines;
  }

  /** One line of the second text (lines 190-203): the box-length pattern's number,
      formatted, if it is usable. */
  method BoxLengthCandidate(line: string, m: Matcher, render: real -> string) returns (value: Option<string>)
    ensures value == CorrectionValue(line, m, render)
  {
    value := None;
    var found := m(BoxLength, line);
    if found.Some? {
      var raw := Strip(found.value);
      var parsed := ParseNumber(Some(raw), Formatted(render));
      if parsed.Some? && parsed.value != "" && parsed.value != Problematic {
        value := parsed;
      }
    }
  }

  /** Once a prefix finds something, the whole sequence finds the same. */
  lemma {:induction false} FirstSomePrefix<T, U>(xs: seq<T>, n: int, f: T -> Option<U>)
    requires 0 <= n <= |xs| && FirstSome(xs[..n], f).Some?
    ensures FirstSome(xs, f) == FirstSome(xs[..n], f)
    decreases |xs| - n
  {
    if n < |xs| {
      assert xs[..n + 1] == xs[..n] + [xs[n]];
      FirstSomeSnoc(xs[..n], xs[n], f);
      FirstSomePrefix(xs, n + 1, f);
    } else {
      assert xs[..n] == xs;
    }
  }

  /** A value the second text offers is never empty and never the misreading. */
  lemma FirstCorrectionUsable(text2: string, m: Matcher, render: real -> string)
    ensures FirstCorrection(text2, m, render).Some? ==>
      FirstCorrection(text2, m, render).value != "" && FirstCorrection(text2, m, render).value != Problematic
  {
    var f := (line: string) => CorrectionValue(line, m, render);
    var lines := SplitLines(text2);
    assert FirstCorrection(text2, m, render) == FirstSome(lines, f);
    FirstSomeSpec(lines, f);
    if FirstSome(lines, f).Some? {
      var k :| 0 <= k < |lines| && f(lines[k]) == FirstSome(lines, f) && forall j | 0 <= j < k :: f(lines[j]).None?;
      var v := CorrectionValue(lines[k], m, render);
      assert v.Some? ==> v.value != "" && v.value != Problematic;
    }
  }

  /** The correction pass changes nothing but the box length, and changes it only
      when it reads "10.000000" and a second text yields a usable value, which is then
      neither empty nor the misreading again (lines 182-205). */
  lemma CorrectionOnlyTouchesBoxLength(results: Results, text2: Option<string>, m: Matcher, render: real -> string)
    ensures Corrected(results, text2, m, render).Keys == results.Keys
    ensures forall k | k in results && k != BoxLength :: Corrected(results, text2, m, render)[k] == results[k]
    ensures !NeedsCorrection(results) ==> Corrected(results, text2, m, render) == results
    ensures Corrected(results, text2, m, render) != results ==>
      && text2.Some?
      && var v := Corrected(results, text2, m, render)[BoxLength];
         v.Some? && v.value != "" && v.value != Problematic
  {
    if text2.Some? {
      FirstCorrectionUsable(text2.value, m, render);
    }
  }

  /** When the second OCR call fails, the pass-1 results stand (lines 207-209). */
  lemma FailedSecondPassKeepsResults(results: Results, m: Matcher, render: real -> string)
    ensures Corrected(results, None, m, render) == results
  {
  }

  /** `ocr_line_parse` after the OCR calls: pass 1 on the first text, then the
      correction pass with the second. */
  method OcrLineParse(text1: string, text2: Option<string>, m: Matcher, render: real -> string)
    returns (results: Results)
    ensures results == Corrected(Pass1(text1, m, render), text2, m, render)
  {
    var pass1 := ParsePass1(text1, m, render);
    results := CorrectBoxLength(pass1, text2, m, render);
  }
}
