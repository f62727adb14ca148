/** Keyword eligibility of a rule (rule_engine.py, lines 565 and 577-607). A rule is
    eligible when one of its keywords occurs in the feature type as a substring. For a
    rule that names one of the "exact search" keywords, a case-insensitive whole-word
    search (`\b` + keyword + `\b`) is tried first and the substring test is the fallback. */
module Keywords {
  import opened Strings

  /** The keywords that switch a rule to the whole-word search. */
  const ExactSearchKeywords: set<string> := {"reib mit o", "reib ohne o"}

  /** The characters of the regex class `\w` that occur in the feature texts: ASCII
      letters and digits, the underscore and the German letters. */
  predicate IsWordChar(c: char) {
    ('a' <= c <= 'z') || ('A' <= c <= 'Z') || IsDigit(c) || c == '_'
    || c == 'ä' || c == 'ö' || c == 'ü' || c == 'ß' || c == 'Ä' || c == 'Ö' || c == 'Ü'
  }

  predicate WordCharAt(s: string, p: int) { 0 <= p < |s| && IsWordChar(s[p]) }

  /** `\b` holds at position `p`: a word character on exactly one side of it. */
  predicate IsBoundary(s: string, p: int) { WordCharAt(s, p - 1) != WordCharAt(s, p) }

  /** The keyword occurs at `i` ignoring case, with a word boundary on both sides. */
  predicate WordMatchAt(s: string, kw: string, i: int) {
    0 <= i && i + |kw| <= |s| && Lower(s[i..i + |kw|]) == Lower(kw)
    && IsBoundary(s, i) && IsBoundary(s, i + |kw|)
  }

  /** `re.search(r'\b' + re.escape(kw) + r'\b', s, re.IGNORECASE)` finds something. */
  predicate WordMatch(s: string, kw: string) {
    exists i | 0 <= i <= |s| - |kw| :: WordMatchAt(s, kw, i)
  }

  predicate UsesExactSearch(kws: seq<string>) {
    exists j | 0 <= j < |kws| :: kws[j] in ExactSearchKeywords
  }

  predicate SomeKeywordContained(ft: string, kws: seq<string>) {
    exists j | 0 <= j < |kws| :: Contains(ft, kws[j])
  }

  predicate SomeKeywordWordMatch(ft: string, kws: seq<string>) {
    exists j | 0 <= j < |kws| :: WordMatch(ft, kws[j])
  }

  /** Eligibility, stated without the search order: some keyword is a substring, or the
      rule uses the exact search and some keyword is a whole word ignoring case. */
  predicate KeywordEligible(ft: string, kws: seq<string>) {
    SomeKeywordContained(ft, kws) || (UsesExactSearch(kws) && SomeKeywordWordMatch(ft, kws))
  }

  /** The keyword test as the resolver runs it: decide the search mode, then search the
      keywords in order and stop at the first hit. */
  method KeywordMatch(ft: string, kws: seq<string>) returns (matched: bool)
    ensures matched == KeywordEligible(ft, kws)
  {
    var exact := false;
    for i := 0 to |kws|
      invariant exact == exists j | 0 <= j < i :: kws[j] in ExactSearchKeywords
    {
      if kws[i] in ExactSearchKeywords {
        exact := true;
      }
    }
    matched := false;
    if exact {
      var i := 0;
      while i < |kws| && !matched
        invariant 0 <= i <= |kws|
        invariant matched == exists j | 0 <= j < i :: WordMatch(ft, kws[j])
      {
        if WordMatch(ft, kws[i]) {
          matched := true;
        }
        i := i + 1;
      }
      if !matched && |kws| > 0 {
        matched := FirstContained(ft, kws);
      }
    } else {
      matched := FirstContained(ft, kws);
    }
  }

  /** The substring search over the keywords, stopping at the first hit. */
  method FirstContained(ft: string, kws: seq<string>) returns (found: bool)
    ensures found == SomeKeywordContained(ft, kws)
  {
    found := false;
    var i := 0;
    while i < |kws| && !found
      invariant 0 <= i <= |kws|
      invariant found == exists j | 0 <= j < i :: Contains(ft, kws[j])
    {
      if Contains(ft, kws[i]) {
        found := true;
      }
      i := i + 1;
    }
  }

  lemma LowerSlice(s: string, i: int, j: int)
    requires 0 <= i <= j <= |s|
    ensures Lower(s[i..j]) == Lower(s)[i..j]
  {
  }

  /** On lowercase text and keywords the whole-word search finds nothing that the
      substring test misses, so eligibility is the substring test alone. */
  lemma {:induction false} LowercaseEligibleIffSubstring(ft: string, kws: seq<string>)
    requires IsLower(ft)
    requires forall j | 0 <= j < |kws| :: IsLower(kws[j])
    ensures KeywordEligible(ft, kws) <==> SomeKeywordContained(ft, kws)
  {
    if UsesExactSearch(kws) && SomeKeywordWordMatch(ft, kws) {
      var j :| 0 <= j < |kws| && WordMatch(ft, kws[j]);
      var kw := kws[j];
      var i :| 0 <= i <= |ft| - |kw| && WordMatchAt(ft, kw, i);
      LowerSlice(ft, i, i + |kw|);
      assert ft[i..i + |kw|] == kw;
      assert OccursAt(ft, kw, i);
    }
  }

  /** With text exactly "reib ohne o", the "reib ohne o" rules are eligible and the
      "reib mit o" rules are not. */
  lemma ReibKeywordsSeparate()
    ensures KeywordEligible("reib ohne o", ["reib ohne o"])
    ensures !KeywordEligible("reib ohne o", ["reib mit o"])
  {
    var ft := "reib ohne o";
    var kws := ["reib ohne o"];
    assert OccursAt(ft, kws[0], 0);
    assert Contains(ft, kws[0]);
    assert !Contains(ft, "reib mit o") by {
      forall i | 0 <= i <= |ft| - 10 ensures !OccursAt(ft, "reib mit o", i) {
        assert i == 0 || i == 1;
        assert ft[i..i + 10][5] != "reib mit o"[5];
      }
    }
    assert !WordMatch(ft, "reib mit o") by {
      forall i | 0 <= i <= |ft| - 10 ensures !WordMatchAt(ft, "reib mit o", i) {
        assert Lower(ft[i..i + 10])[5] != Lower("reib mit o")[5];
      }
    }
  }

  /** The whole-word search adds case-insensitivity: upper-case text still selects a
      rule that uses the exact search, but not one that only tests substrings. */
  lemma ExactSearchIgnoresCase()
    ensures KeywordEligible("REIB MIT O", ["reib mit o"])
    ensures !KeywordEligible("TRENNEN", ["trennen"])
  {
    var up := "REIB MIT O";
    assert Lower(up[0..10]) == Lower("reib mit o");
    var kws := ["reib mit o"];
    assert WordMatchAt(up, kws[0], 0);
    assert WordMatch(up, kws[0]);
    assert kws[0] in ExactSearchKeywords;
    assert !Contains("TRENNEN", "trennen") by {
      assert !OccursAt("TRENNEN", "trennen", 0) by {
        assert "TRENNEN"[0] != "trennen"[0];
      }
    }
  }
}
