/** `parse_number` (ocr_recognition.py, lines 140-154): clean a noisy OCR value and pull
    the first number `-?\d+(\.\d+)?` out of it. Commas become points, trailing and
    leading noise is cut away, and the number is returned as found or rendered by a
    format such as "{:.6f}". Text without a number comes back cleaned, blank text as
    `None`. */
module NumberText {
  import opened Strings
  import opened FieldValues

  /** The `format_str` argument: `None` returns the number as found; otherwise the
      number's value is rendered (the rendering itself is a parameter). */
  datatype NumFormat = Unformatted | Formatted(render: real -> string)

  /** Characters that `[^\d.\s-]*$` removes from the end. */
  predicate IsTrailingNoise(c: char) { !(IsDigit(c) || c == '.' || IsSpace(c) || c == '-') }

  /** Characters that `^[^\d-]*` removes from the start. */
  predicate IsLeadingNoise(c: char) { !(IsDigit(c) || c == '-') }

  /** `re.sub(r"[^\d.\s-]*$", "", s)`: removes the longest run of noise at the end. */
  function DropTrailingNoise(s: string): string
    decreases |s|
  {
    if |s| > 0 && IsTrailingNoise(s[|s| - 1]) then DropTrailingNoise(s[..|s| - 1]) else s
  }

  /** What is left is a prefix that does not end in noise, and all that went was noise. */
  lemma {:induction false} DropTrailingNoiseSpec(s: string)
    ensures var r := DropTrailingNoise(s);
      && r <= s
      && (|r| > 0 ==> !IsTrailingNoise(r[|r| - 1]))
      && forall i | |r| <= i < |s| :: IsTrailingNoise(s[i])
    decreases |s|
  {
    if |s| > 0 && IsTrailingNoise(s[|s| - 1]) {
      DropTrailingNoiseSpec(s[..|s| - 1]);
    }
  }

  /** `re.sub(r"^[^\d-]*", "", s)`: removes the longest run of noise at the start. */
  function DropLeadingNoise(s: string): string
    decreases |s|
  {
    if |s| > 0 && IsLeadingNoise(s[0]) then DropLeadingNoise(s[1..]) else s
  }

  /** What is left is a suffix that does not start with noise, and all that went was noise. */
  lemma {:induction false} DropLeadingNoiseSpec(s: string)
    ensures var r := DropLeadingNoise(s);
      && |r| <= |s| && r == s[|s| - |r|..]
      && (|r| > 0 ==> !IsLeadingNoise(r[0]))
      && forall i | 0 <= i < |s| - |r| :: IsLeadingNoise(s[i])
    decreases |s|
  {
    if |s| > 0 && IsLeadingNoise(s[0]) {
      DropLeadingNoiseSpec(s[1..]);
    }
  }

  /** The text after the three cleaning steps of lines 143-145. */
  function CleanNumber(s: string): string {
    Strip(DropLeadingNoise(Strip(DropTrailingNoise(Strip(ReplaceComma(s))))))
  }

  /** A match of `-?\d+(?:\.\d+)?` can start at `i`. */
  predicate NumberStartsAt(s: string, i: int) {
    0 <= i < |s| && (IsDigit(s[i]) || (s[i] == '-' && i + 1 < |s| && IsDigit(s[i + 1])))
  }

  /** The end of the run of digits that starts at `i`. */
  function DigitRunEnd(s: string, i: int): (j: int)
    requires 0 <= i <= |s|
    ensures i <= j <= |s|
    ensures forall k | i <= k < j :: IsDigit(s[k])
    ensures j == |s| || !IsDigit(s[j])
    decreases |s| - i
  {
    if i < |s| && IsDigit(s[i]) then DigitRunEnd(s, i + 1) else i
  }

  /** Where the greedy match that starts at `i` ends. */
  function NumberEndAt(s: string, i: int): (j: int)
    requires NumberStartsAt(s, i)
    ensures i < j <= |s|
  {
    var d := if s[i] == '-' then i + 1 else i;
    var e := DigitRunEnd(s, d);
    if e + 1 < |s| && s[e] == '.' && IsDigit(s[e + 1]) then DigitRunEnd(s, e + 1) else e
  }

  /** The leftmost match at or after position `i`. */
  function FindNumberFrom(s: string, i: nat): Option<string>
    decreases |s| - i
  {
    if i >= |s| then None
    else if NumberStartsAt(s, i) then Some(s[i..NumberEndAt(s, i)])
    else FindNumberFrom(s, i + 1)
  }

  /** `re.search(r"(-?\d+(?:\.\d+)?)", s)`, as the matched text. */
  function FindNumber(s: string): Option<string> {
    FindNumberFrom(s, 0)
  }

  /** The texts the pattern matches in full. */
  predicate IsNumberToken(t: string) {
    IsUnsignedToken(if |t| > 0 && t[0] == '-' then t[1..] else t)
  }

  /** A decimal literal that starts and ends with a digit. */
  predicate IsUnsignedToken(b: string) {
    |b| > 0 && IsDigit(b[0]) && IsUnsignedDecimal(b) && IsDigit(b[|b| - 1])
  }

  /** `parse_number(value_str, format_str)`; `None` stands for a value that is not a string. */
  function ParseNumber(v: Option<string>, f: NumFormat): Option<string> {
    match v
    case None => None
    case Some(s) => FromCleaned(s, CleanNumber(s), f)
  }

  /** Lines 146-154, given the value and its cleaned text. */
  function FromCleaned(s: string, cleaned: string, f: NumFormat): Option<string> {
    match FindNumber(cleaned)
    case Some(num) => Render(num, f)
    case None => if IsBlank(s) then None else Some(cleaned)
  }

  /** The found number, formatted when a format is given; the text itself if `float()`
      were to reject it. */
  function Render(num: string, f: NumFormat): Option<string> {
    match f
    case Unformatted => Some(num)
    case Formatted(render) =>
      match ParseFloat(num)
      case Some(x) => Some(render(x))
      case None => Some(num)
  }

  // ---------------------------------------------------------------------------------

  lemma {:induction false} FindNumberFromSpec(s: string, i: nat)
    ensures FindNumberFrom(s, i).None? <==> forall j | i <= j < |s| :: !NumberStartsAt(s, j)
    ensures FindNumberFrom(s, i).Some? ==>
      exists k | i <= k < |s| ::
        && NumberStartsAt(s, k)
        && FindNumberFrom(s, i) == Some(s[k..NumberEndAt(s, k)])
        && forall j | i <= j < k :: !NumberStartsAt(s, j)
    decreases |s| - i
  {
    if i < |s| {
      if NumberStartsAt(s, i) {
        assert FindNumberFrom(s, i) == Some(s[i..NumberEndAt(s, i)]);
      } else {
        FindNumberFromSpec(s, i + 1);
        assert FindNumberFrom(s, i) == FindNumberFrom(s, i + 1);
        if FindNumberFrom(s, i).Some? {
          var k :| i + 1 <= k < |s| && NumberStartsAt(s, k) && FindNumberFrom(s, i + 1) == Some(s[k..NumberEndAt(s, k)])
            && forall j | i + 1 <= j < k :: !NumberStartsAt(s, j);
          assert forall j | i <= j < k :: !NumberStartsAt(s, j);
        }
      }
    }
  }

  /** A number starts wherever a digit is, so a match exists exactly when a digit does. */
  lemma NumberStartIffDigit(s: string)
    ensures (exists j | 0 <= j < |s| :: NumberStartsAt(s, j)) <==> HasDigit(s)
  {
    if exists j | 0 <= j < |s| :: NumberStartsAt(s, j) {
      var j :| 0 <= j < |s| && NumberStartsAt(s, j);
      if !IsDigit(s[j]) {
        assert IsDigit(s[j + 1]);
      }
    }
    if HasDigit(s) {
      var i :| 0 <= i < |s| && IsDigit(s[i]);
      assert NumberStartsAt(s, i);
    }
  }

  lemma DigitsAreToken(b: string)
    requires |b| > 0 && AllDigits(b)
    ensures IsUnsignedToken(b)
  {
  }

  lemma PointedIsToken(ip: string, fp: string)
    requires |ip| > 0 && |fp| > 0 && AllDigits(ip) && AllDigits(fp)
    ensures IsUnsignedToken(ip + "." + fp)
  {
    var b := ip + "." + fp;
    assert b[..|ip|] == ip && b[|ip| + 1..] == fp && b[|ip|] == '.';
    assert b[0] == ip[0] && b[|b| - 1] == fp[|fp| - 1];
  }

  /** The text of a match is a number token. */
  lemma MatchIsToken(s: string, i: int)
    requires NumberStartsAt(s, i)
    ensures IsNumberToken(s[i..NumberEndAt(s, i)])
  {
    var n := NumberEndAt(s, i);
    var t := s[i..n];
    var d := if s[i] == '-' then i + 1 else i;
    var e := DigitRunEnd(s, d);
    assert (if |t| > 0 && t[0] == '-' then t[1..] else t) == s[d..n];
    if e + 1 < |s| && s[e] == '.' && IsDigit(s[e + 1]) {
      assert s[d..n] == s[d..e] + "." + s[e + 1..n];
      PointedIsToken(s[d..e], s[e + 1..n]);
    } else {
      DigitsAreToken(s[d..n]);
    }
  }

  /** A run of digits from `i` to `m` lies inside the run that starts at `i`. */
  lemma DigitRunCovers(s: string, i: int, m: int)
    requires 0 <= i <= m <= |s|
    requires forall j | i <= j < m :: IsDigit(s[j])
    ensures m <= DigitRunEnd(s, i)
  {
  }

  /** The match is greedy: no number token that starts where it does is longer. */
  lemma MatchIsLongest(s: string, k: int, t: string)
    requires NumberStartsAt(s, k)
    requires IsNumberToken(t) && OccursAt(s, t, k)
    ensures |t| <= NumberEndAt(s, k) - k
  {
    var m := k + |t|;
    var d := if s[k] == '-' then k + 1 else k;
    assert t[0] == s[k];
    assert (if |t| > 0 && t[0] == '-' then t[1..] else t) == s[d..m];
    UnsignedRunLongest(s, d, m);
  }

  /** An unsigned token at `d` ends no later than the greedy match of the digits, point
      and digits that start at `d`. */
  lemma UnsignedRunLongest(s: string, d: int, m: int)
    requires 0 <= d <= m <= |s| && IsUnsignedToken(s[d..m])
    ensures var e := DigitRunEnd(s, d);
      m <= if e + 1 < |s| && s[e] == '.' && IsDigit(s[e + 1]) then DigitRunEnd(s, e + 1) else e
  {
    var b := s[d..m];
    if AllDigits(b) {
      SliceDigits(s, d, m, 0, |b|);
      DigitRunCovers(s, d, m);
    } else {
      var p :| 0 <= p < |b| && b[p] == '.' && AllDigits(b[..p]) && AllDigits(b[p + 1..]) && |b| > 1;
      assert 0 < p < |b| - 1 by {
        assert !IsDigit(b[p]);
      }
      SliceDigits(s, d, m, 0, p);
      SliceDigits(s, d, m, p + 1, |b|);
      PointedRun(s, d, d + p, m);
    }
  }

  lemma SliceDigits(s: string, d: int, m: int, lo: int, hi: int)
    requires 0 <= d <= m <= |s| && 0 <= lo <= hi <= m - d
    requires AllDigits(s[d..m][lo..hi])
    ensures forall j | d + lo <= j < d + hi :: IsDigit(s[j])
  {
    forall j | d + lo <= j < d + hi ensures IsDigit(s[j]) {
      assert s[j] == s[d..m][lo..hi][j - d - lo];
    }
  }

  /** Digits from `d`, a point at `q` and digits up to `m`: the greedy match reaches `m`. */
  lemma PointedRun(s: string, d: int, q: int, m: int)
    requires 0 <= d < q && q + 1 < m <= |s| && s[q] == '.'
    requires forall j | d <= j < q :: IsDigit(s[j])
    requires forall j | q + 1 <= j < m :: IsDigit(s[j])
    ensures DigitRunEnd(s, d) == q && IsDigit(s[q + 1]) && m <= DigitRunEnd(s, q + 1)
  {
    DigitRunCovers(s, d, q);
    DigitRunCovers(s, q + 1, m);
  }

  /** The search finds nothing exactly when there is no digit; otherwise it finds the
      longest number token at the leftmost position where one can start. */
  lemma FindNumberSpec(s: string)
    ensures FindNumber(s).None? <==> !HasDigit(s)
    ensures FindNumber(s).Some? ==>
      && IsNumberToken(FindNumber(s).value)
      && exists k | 0 <= k < |s| ::
           && OccursAt(s, FindNumber(s).value, k)
           && (forall j | 0 <= j < k :: !NumberStartsAt(s, j))
           && forall t | IsNumberToken(t) && OccursAt(s, t, k) :: |t| <= |FindNumber(s).value|
  {
    FindNumberNoneIff(s);
    FindNumberFound(s);
  }

  lemma FindNumberNoneIff(s: string)
    ensures FindNumber(s).None? <==> !HasDigit(s)
  {
    FindNumberFromSpec(s, 0);
    NumberStartIffDigit(s);
  }

  /** The match that starts at `k` is the longest number token found at `k`. */
  lemma LeftmostMatchOccurs(s: string, k: int)
    requires NumberStartsAt(s, k)
    ensures IsNumberToken(s[k..NumberEndAt(s, k)])
    ensures OccursAt(s, s[k..NumberEndAt(s, k)], k)
    ensures forall t | IsNumberToken(t) && OccursAt(s, t, k) :: |t| <= NumberEndAt(s, k) - k
  {
    MatchIsToken(s, k);
    forall t | IsNumberToken(t) && OccursAt(s, t, k) ensures |t| <= NumberEndAt(s, k) - k {
      MatchIsLongest(s, k, t);
    }
  }

  lemma FindNumberFound(s: string)
    ensures FindNumber(s).Some? ==>
      && IsNumberToken(FindNumber(s).value)
      && exists k | 0 <= k < |s| ::
           && OccursAt(s, FindNumber(s).value, k)
           && (forall j | 0 <= j < k :: !NumberStartsAt(s, j))
           && forall t | IsNumberToken(t) && OccursAt(s, t, k) :: |t| <= |FindNumber(s).value|
  {
    if FindNumber(s).Some? {
      FindNumberFromSpec(s, 0);
      var k :| 0 <= k < |s| && NumberStartsAt(s, k) && FindNumber(s) == Some(s[k..NumberEndAt(s, k)])
        && forall j | 0 <= j < k :: !NumberStartsAt(s, j);
      LeftmostMatchOccurs(s, k);
    }
  }

  /** `float()` accepts every number token, so the `ValueError` branch (line 152) is
      never taken. */
  lemma TokenIsFloat(t: string)
    requires IsNumberToken(t)
    ensures ParseFloat(t).Some?
  {
    ParseFloatDefinedIff(t);
  }

  lemma {:induction false} StripLeftKeepsDigits(s: string)
    ensures HasDigit(StripLeft(s)) <==> HasDigit(s)
    decreases |s|
  {
    if |s| > 0 && IsSpace(s[0]) {
      StripLeftKeepsDigits(s[1..]);
      HasDigitTail(s);
    }
  }

  lemma HasDigitTail(s: string)
    requires |s| > 0 && !IsDigit(s[0])
    ensures HasDigit(s) <==> HasDigit(s[1..])
  {
    if HasDigit(s) {
      var i :| 0 <= i < |s| && IsDigit(s[i]);
      assert s[1..][i - 1] == s[i];
    }
    if HasDigit(s[1..]) {
      var i :| 0 <= i < |s[1..]| && IsDigit(s[1..][i]);
      assert s[i + 1] == s[1..][i];
    }
  }

  lemma HasDigitFront(s: string)
    requires |s| > 0 && !IsDigit(s[|s| - 1])
    ensures HasDigit(s) <==> HasDigit(s[..|s| - 1])
  {
    if HasDigit(s) {
      var i :| 0 <= i < |s| && IsDigit(s[i]);
      assert s[..|s| - 1][i] == s[i];
    }
  }

  lemma {:induction false} StripRightKeepsDigits(s: string)
    ensures HasDigit(StripRight(s)) <==> HasDigit(s)
    decreases |s|
  {
    if |s| > 0 && IsSpace(s[|s| - 1]) {
      StripRightKeepsDigits(s[..|s| - 1]);
      HasDigitFront(s);
    }
  }

  lemma StripKeepsDigits(s: string)
    ensures HasDigit(Strip(s)) <==> HasDigit(s)
  {
    StripLeftKeepsDigits(s);
    StripRightKeepsDigits(StripLeft(s));
  }

  lemma DropTrailingKeepsDigits(s: string)
    ensures HasDigit(DropTrailingNoise(s)) <==> HasDigit(s)
  {
    var r := DropTrailingNoise(s);
    DropTrailingNoiseSpec(s);
    if HasDigit(s) {
      var k :| 0 <= k < |s| && IsDigit(s[k]);
      assert k < |r| && r[k] == s[k];
    }
    if HasDigit(r) {
      var k :| 0 <= k < |r| && IsDigit(r[k]);
      assert s[k] == r[k];
    }
  }

  lemma DropLeadingKeepsDigits(s: string)
    ensures HasDigit(DropLeadingNoise(s)) <==> HasDigit(s)
  {
    var r := DropLeadingNoise(s);
    DropLeadingNoiseSpec(s);
    var off := |s| - |r|;
    if HasDigit(s) {
      var k :| 0 <= k < |s| && IsDigit(s[k]);
      assert k >= off && r[k - off] == s[k];
    }
    if HasDigit(r) {
      var k :| 0 <= k < |r| && IsDigit(r[k]);
      assert s[k + off] == r[k];
    }
  }

  /** Cleaning never removes a digit and never adds one. */
  lemma CleanKeepsDigits(s: string)
    ensures HasDigit(CleanNumber(s)) <==> HasDigit(s)
  {
    var s0 := ReplaceComma(s);
    ReplaceCommaDigits(s);
    StripKeepsDigits(s0);
    DropTrailingKeepsDigits(Strip(s0));
    StripKeepsDigits(DropTrailingNoise(Strip(s0)));
    DropLeadingKeepsDigits(Strip(DropTrailingNoise(Strip(s0))));
    StripKeepsDigits(DropLeadingNoise(Strip(DropTrailingNoise(Strip(s0)))));
  }

  /** A non-string value gives `None` (line 141). */
  lemma NonStringGivesNone(f: NumFormat)
    ensures ParseNumber(None, f) == None
  {
  }

  /** Commas become points before anything else, so values that differ only in `,`
      against `.` give the same result (line 143). */
  lemma CommaInsensitive(s1: string, s2: string, f: NumFormat)
    requires ReplaceComma(s1) == ReplaceComma(s2)
    ensures ParseNumber(Some(s1), f) == ParseNumber(Some(s2), f)
  {
    ReplaceCommaBlank(s1);
    ReplaceCommaBlank(s2);
    assert CleanNumber(s1) == CleanNumber(s2);
  }

  /** With a digit in the value and no format, the result is the leftmost, longest match
      of the number pattern in the cleaned text (lines 146-151). */
  lemma UnformattedIsFirstMatch(s: string)
    requires HasDigit(s)
    ensures ParseNumber(Some(s), Unformatted).Some?
    ensures var t := ParseNumber(Some(s), Unformatted).value;
      && IsNumberToken(t)
      && exists k | 0 <= k < |CleanNumber(s)| ::
           && OccursAt(CleanNumber(s), t, k)
           && (forall j | 0 <= j < k :: !NumberStartsAt(CleanNumber(s), j))
           && forall u | IsNumberToken(u) && OccursAt(CleanNumber(s), u, k) :: |u| <= |t|
  {
    CleanKeepsDigits(s);
    FindNumberSpec(CleanNumber(s));
  }

  /** With a digit in the value and a format, the result is the rendering of the
      number's value (line 150). */
  lemma FormattedRendersValue(s: string, render: real -> string)
    requires HasDigit(s)
    ensures FindNumber(CleanNumber(s)).Some?
    ensures ParseFloat(FindNumber(CleanNumber(s)).value).Some?
    ensures ParseNumber(Some(s), Formatted(render)) == Some(render(ParseFloat(FindNumber(CleanNumber(s)).value).value))
  {
    var c := CleanNumber(s);
    CleanKeepsDigits(s);
    FindNumberSpec(c);
    var t := FindNumber(c).value;
    TokenIsFloat(t);
    RenderFormatted(t, render);
  }

  lemma RenderFormatted(t: string, render: real -> string)
    requires ParseFloat(t).Some?
    ensures Render(t, Formatted(render)) == Some(render(ParseFloat(t).value))
  {
  }

  /** Without a digit, the cleaned text comes back for a non-blank value and `None`
      for a blank one, whatever the format (line 154). */
  lemma NoDigitGivesCleaned(s: string, f: NumFormat)
    requires !HasDigit(s)
    ensures ParseNumber(Some(s), f) == if IsBlank(s) then None else Some(CleanNumber(s))
  {
    CleanKeepsDigits(s);
    FindNumberSpec(CleanNumber(s));
  }

  /** Text without white space at its ends is left alone by `strip`. */
  lemma StripUnchanged(s: string)
    requires |s| > 0 && !IsSpace(s[0]) && !IsSpace(s[|s| - 1])
    ensures Strip(s) == s
  {
    assert StripLeft(s) == s;
    assert StripRight(s) == s;
  }

  lemma DiameterUnitTrailing()
    ensures Strip(ReplaceComma("Ø 12.3 mm")) == "Ø 12.3 mm"
    ensures DropTrailingNoise("Ø 12.3 mm") == "Ø 12.3 "
  {
    var s := "Ø 12.3 mm";
    assert ReplaceComma(s) == s by { assert |ReplaceComma(s)| == |s|; }
    StripUnchanged(s);
    assert s[..|s| - 1] == "Ø 12.3 m";
    assert "Ø 12.3 m"[..7] == "Ø 12.3 ";
  }

  lemma DiameterUnitMiddle()
    ensures Strip("Ø 12.3 ") == "Ø 12.3"
  {
    var u := "Ø 12.3 ";
    assert StripLeft(u) == u;
    assert u[..6] == "Ø 12.3";
    assert StripRight("Ø 12.3") == "Ø 12.3";
    assert StripRight(u) == "Ø 12.3";
  }

  lemma DiameterUnitLeading()
    ensures DropLeadingNoise("Ø 12.3") == "12.3"
  {
    var c := "12.3";
    assert !IsLeadingNoise(c[0]);
    assert DropLeadingNoise(c) == c;
    var d := " " + c;
    assert d[1..] == c;
    assert IsLeadingNoise(d[0]);
    assert DropLeadingNoise(d) == c;
    var e := "Ø" + d;
    assert e[1..] == d;
    assert IsLeadingNoise(e[0]);
    assert e == "Ø 12.3";
  }

  lemma DiameterUnitCleaned()
    ensures CleanNumber("Ø 12.3 mm") == "12.3"
  {
    var s := "Ø 12.3 mm";
    var a := Strip(ReplaceComma(s));
    var b := DropTrailingNoise(a);
    var c := Strip(b);
    var d := DropLeadingNoise(c);
    assert a == s && b == "Ø 12.3 " by { DiameterUnitTrailing(); }
    assert c == "Ø 12.3" by { DiameterUnitMiddle(); }
    assert d == "12.3" by { DiameterUnitLeading(); }
    assert Strip(d) == "12.3" by { StripUnchanged("12.3"); }
  }

  lemma FindTwelvePointThree()
    ensures FindNumber("12.3") == Some("12.3")
  {
    var c := "12.3";
    assert NumberStartsAt(c, 0);
    assert DigitRunEnd(c, 0) == 2;
    assert DigitRunEnd(c, 3) == 4;
    assert NumberEndAt(c, 0) == 4;
    assert c[0..4] == c;
  }

  /** "Ø 12.3 mm" gives "12.3" when no format is asked for. */
  lemma DiameterUnitExample()
    ensures ParseNumber(Some("Ø 12.3 mm"), Unformatted) == Some("12.3")
  {
    DiameterUnitCleaned();
    FindTwelvePointThree();
  }

  lemma NinePointFiveCleaned()
    ensures CleanNumber("9.5") == "9.5"
    ensures FindNumber("9.5") == Some("9.5")
  {
    var c := "9.5";
    assert ReplaceComma(c) == c by { assert |ReplaceComma(c)| == 3; }
    StripUnchanged(c);
    assert DropTrailingNoise(c) == c;
    assert DropLeadingNoise(c) == c;
    assert NumberStartsAt(c, 0);
    assert DigitRunEnd(c, 0) == 1;
    assert DigitRunEnd(c, 2) == 3;
    assert NumberEndAt(c, 0) == 3;
    assert c[0..3] == c;
  }

  /** "9,5" and "9.5" both give "9.5". */
  lemma CommaExample()
    ensures ParseNumber(Some("9,5"), Unformatted) == ParseNumber(Some("9.5"), Unformatted) == Some("9.5")
  {
    assert ReplaceComma("9,5") == "9.5" by { assert |ReplaceComma("9,5")| == 3; }
    CommaInsensitive("9,5", "9.5", Unformatted);
    NinePointFiveCleaned();
  }
}
