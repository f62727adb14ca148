/** The Python `str` operations that the rule engine and the OCR post-processing rely on:
    character classes, lower-casing, prefix/suffix/substring tests, `strip`, the
    comma-to-dot replacement and the code-point order that `sorted` uses on names. */
module Strings {

  datatype Option<+T> = None | Some(value: T)

  predicate IsDigit(c: char) { '0' <= c <= '9' }

  /** The whitespace that `str.strip` and the regex class `\s` remove (the ASCII part). */
  predicate IsSpace(c: char) {
    c == ' ' || c == '\t' || c == '\n' || c == '\r' || c == '\U{000B}' || c == '\U{000C}'
  }

  predicate AllDigits(s: string) { forall i | 0 <= i < |s| :: IsDigit(s[i]) }

  predicate HasDigit(s: string) { exists i | 0 <= i < |s| :: IsDigit(s[i]) }

  predicate IsBlank(s: string) { forall i | 0 <= i < |s| :: IsSpace(s[i]) }

  /** `str.lower` on one character: ASCII letters and the German umlauts. */
  function LowerChar(c: char): char {
    if 'A' <= c <= 'Z' then (c as int + 32) as char
    else if c == 'Ä' then 'ä'
    else if c == 'Ö' then 'ö'
    else if c == 'Ü' then 'ü'
    else c
  }

  function Lower(s: string): string {
    seq(|s|, i requires 0 <= i < |s| => LowerChar(s[i]))
  }

  predicate IsLower(s: string) { Lower(s) == s }

  predicate StartsWith(s: string, p: string) { p <= s }

  predicate EndsWith(s: string, p: string) { |p| <= |s| && s[|s| - |p|..] == p }

  predicate OccursAt(s: string, sub: string, i: int) {
    0 <= i && i + |sub| <= |s| && s[i..i + |sub|] == sub
  }

  /** Python's `sub in s`. */
  predicate Contains(s: string, sub: string) {
    exists i | 0 <= i <= |s| - |sub| :: OccursAt(s, sub, i)
  }

  /** `s.replace(",", ".")` */
  function ReplaceComma(s: string): string {
    seq(|s|, i requires 0 <= i < |s| => if s[i] == ',' then '.' else s[i])
  }

  function StripLeft(s: string): (r: string)
    ensures Contains(s, r)
    ensures |r| > 0 ==> !IsSpace(r[0])
    ensures IsBlank(s) <==> r == []
    decreases |s|
  {
    if |s| > 0 && IsSpace(s[0]) then
      var r := StripLeft(s[1..]);
      ContainsTail(s, r);
      r
    else
      assert OccursAt(s, s, 0);
      s
  }

  function StripRight(s: string): (r: string)
    ensures Contains(s, r)
    ensures |r| > 0 ==> !IsSpace(r[|r| - 1])
    ensures IsBlank(s) <==> r == []
    decreases |s|
  {
    if |s| > 0 && IsSpace(s[|s| - 1]) then
      var r := StripRight(s[..|s| - 1]);
      ContainsFront(s, r);
      r
    else
      assert OccursAt(s, s, 0);
      s
  }

  /** `str.strip()`: the result has no white space at either end, and it is empty exactly
      when the input is blank (that it is the input without its edge white space is
      `StripSpec`). */
  function Strip(s: string): (r: string)
    ensures |r| > 0 ==> !IsSpace(r[0]) && !IsSpace(r[|r| - 1])
    ensures IsBlank(s) <==> r == []
  {
    StripFacts(s);
    StripRight(StripLeft(s))
  }

  lemma StripFacts(s: string)
    ensures var r := StripRight(StripLeft(s));
      && Contains(s, r)
      && (|r| > 0 ==> !IsSpace(r[0]))
      && (IsBlank(s) <==> r == [])
  {
    var l := StripLeft(s);
    var r := StripRight(l);
    ContainsTrans(s, l, r);
    if |r| > 0 {
      StripRightPrefix(l);
      assert r[0] == l[0];
    }
    if !IsBlank(s) {
      assert !IsSpace(l[0]);
    }
  }

  /** `str.strip()` removes the white space at both ends and nothing else: the result is
      the slice of the input between a blank head and a blank tail. */
  lemma StripSpec(s: string)
    ensures exists i | 0 <= i <= |s| - |Strip(s)| ::
      && Strip(s) == s[i..i + |Strip(s)|]
      && IsBlank(s[..i])
      && IsBlank(s[i + |Strip(s)|..])
  {
    var l := StripLeft(s);
    var r := StripRight(l);
    var i := |s| - |l|;
    assert Strip(s) == r;
    assert 0 <= i <= |s| && l == s[i..] && IsBlank(s[..i]) by {
      StripLeftSpec(s);
    }
    assert |r| <= |l| && r == l[..|r|] && IsBlank(l[|r|..]) by {
      StripRightSpec(l);
    }
    PrefixOfSuffix(s, i, l, r);
  }

  lemma PrefixOfSuffix(s: string, i: int, l: string, r: string)
    requires 0 <= i <= |s| && l == s[i..] && |r| <= |l| && r == l[..|r|]
    ensures r == s[i..i + |r|] && l[|r|..] == s[i + |r|..]
  {
  }

  /** `str.lstrip()` drops exactly the leading white space: the result is the suffix after
      a blank head. */
  lemma {:induction false} StripLeftSpec(s: string)
    ensures var r := StripLeft(s);
      |r| <= |s| && r == s[|s| - |r|..] && IsBlank(s[..|s| - |r|])
    decreases |s|
  {
    if |s| > 0 && IsSpace(s[0]) {
      StripLeftSpec(s[1..]);
      var r := StripLeft(s[1..]);
      var n := |s| - |r|;
      assert s[1..][|s| - 1 - |r|..] == s[n..];
      forall i | 0 <= i < n ensures IsSpace(s[..n][i]) {
        if i > 0 {
          assert s[..n][i] == s[1..][..n - 1][i - 1];
        }
      }
    }
  }

  /** `str.rstrip()` drops exactly the trailing white space: the result is the prefix
      before a blank tail. */
  lemma {:induction false} StripRightSpec(s: string)
    ensures var r := StripRight(s);
      |r| <= |s| && r == s[..|r|] && IsBlank(s[|r|..])
    decreases |s|
  {
    if |s| > 0 && IsSpace(s[|s| - 1]) {
      StripRightSpec(s[..|s| - 1]);
      var r := StripRight(s[..|s| - 1]);
      assert s[..|s| - 1][..|r|] == s[..|r|];
      forall i | 0 <= i < |s| - |r| ensures IsSpace(s[|r|..][i]) {
        if i < |s| - 1 - |r| {
          assert s[|r|..][i] == s[..|s| - 1][|r|..][i];
        }
      }
    }
  }

  lemma StripRightPrefix(s: string)
    ensures StripRight(s) <= s
    decreases |s|
  {
    if |s| > 0 && IsSpace(s[|s| - 1]) {
      StripRightPrefix(s[..|s| - 1]);
    }
  }

  lemma ContainsTail(s: string, r: string)
    requires |s| > 0 && Contains(s[1..], r)
    ensures Contains(s, r)
  {
    var i :| 0 <= i <= |s[1..]| - |r| && OccursAt(s[1..], r, i);
    assert s[i + 1..i + 1 + |r|] == s[1..][i..i + |r|];
    assert OccursAt(s, r, i + 1);
  }

  lemma ContainsFront(s: string, r: string)
    requires |s| > 0 && Contains(s[..|s| - 1], r)
    ensures Contains(s, r)
  {
    var i :| 0 <= i <= |s[..|s| - 1]| - |r| && OccursAt(s[..|s| - 1], r, i);
    assert s[i..i + |r|] == s[..|s| - 1][i..i + |r|];
    assert OccursAt(s, r, i);
  }

  /** A piece of a piece of `a` is a piece of `a`. */
  lemma ContainsTrans(a: string, b: string, c: string)
    requires Contains(a, b) && Contains(b, c)
    ensures Contains(a, c)
  {
    var i :| 0 <= i <= |a| - |b| && OccursAt(a, b, i);
    var j :| 0 <= j <= |b| - |c| && OccursAt(b, c, j);
    forall k | 0 <= k < |c| ensures a[i + j + k] == c[k] {
      assert c[k] == b[j + k] == a[i..i + |b|][j + k];
    }
    assert a[i + j..i + j + |c|] == c;
    assert OccursAt(a, c, i + j);
  }

  /** The code-point order of Python's string comparison, which `sorted` uses. */
  predicate StrLt(a: string, b: string)
    decreases |a|
  {
    if |a| == 0 then |b| > 0
    else if |b| == 0 then false
    else a[0] < b[0] || (a[0] == b[0] && StrLt(a[1..], b[1..]))
  }

  lemma StrLtIrreflexive(a: string)
    ensures !StrLt(a, a)
    decreases |a|
  {
    if |a| > 0 { StrLtIrreflexive(a[1..]); }
  }

  lemma StrLtTransitive(a: string, b: string, c: string)
    requires StrLt(a, b) && StrLt(b, c)
    ensures StrLt(a, c)
    decreases |a|
  {
    if |a| > 0 && |b| > 0 && |c| > 0 && a[0] == b[0] == c[0] {
      StrLtTransitive(a[1..], b[1..], c[1..]);
    }
  }

  lemma StrLtTotal(a: string, b: string)
    ensures a == b || StrLt(a, b) || StrLt(b, a)
    decreases |a|
  {
    if |a| > 0 && |b| > 0 && a[0] == b[0] {
      StrLtTotal(a[1..], b[1..]);
      if a[1..] == b[1..] {
        assert a == [a[0]] + a[1..] && b == [b[0]] + b[1..];
      }
    }
  }

  /** Replacing commas does not change where the white space is. */
  lemma ReplaceCommaBlank(s: string)
    ensures IsBlank(ReplaceComma(s)) <==> IsBlank(s)
  {
    var t := ReplaceComma(s);
    if IsBlank(t) {
      forall i | 0 <= i < |s| ensures IsSpace(s[i]) {
        assert IsSpace(t[i]);
      }
    }
  }

  lemma ReplaceCommaDigits(s: string)
    ensures HasDigit(ReplaceComma(s)) <==> HasDigit(s)
  {
    var t := ReplaceComma(s);
    if HasDigit(s) {
      var i :| 0 <= i < |s| && IsDigit(s[i]);
      assert IsDigit(t[i]);
    }
    if HasDigit(t) {
      var i :| 0 <= i < |t| && IsDigit(t[i]);
      assert IsDigit(s[i]);
    }
  }
}
