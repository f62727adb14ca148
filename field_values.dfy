/** The numeric fields the rule engine reads from the OCR result mapping
    (rule_engine.py, lines 45-99): each of seven fields is absent, or the number its
    text denotes once `,` is replaced by `.`; text that is not a number is treated as
    absent, never as an error. */
module FieldValues {
  import opened Strings

  /** The OCR results: field name to an optional text (the source's `dict` with `None`s). */
  type Fields = map<string, Option<string>>

  /** The seven parsed numbers, named after the parameters of the rule predicates. */
  datatype Nums = Nums(
    dia: Option<real>,      // Durchmesser
    bboxB: Option<real>,    // Begrenzungsbox Breite
    tief: Option<real>,     // Tiefe
    bboxL: Option<real>,    // Begrenzungsbox Länge
    klR: Option<real>,      // Kleinster Radius
    faseDia: Option<real>,  // Fasendurchmesser
    bohrDia: Option<real>)  // Bohrdurchmesser

  function DigitValue(c: char): nat
    requires IsDigit(c)
  {
    c as int - '0' as int
  }

  function DigitsValue(ds: string): nat
    requires AllDigits(ds)
    decreases |ds|
  {
    if ds == [] then 0 else DigitsValue(ds[..|ds| - 1]) * 10 + DigitValue(ds[|ds| - 1])
  }

  /** The value of the digits after a decimal point: `0.d1d2...` is `(d1 + 0.d2...) / 10`. */
  function FractionValue(fp: string): real
    requires AllDigits(fp)
    decreases |fp|
  {
    if fp == [] then 0.0 else (DigitValue(fp[0]) as real + FractionValue(fp[1..])) / 10.0
  }

  /** Position of the first `.`, or `|s|` when there is none. */
  function DotIndex(s: string): (k: nat)
    ensures k <= |s|
    ensures k < |s| ==> s[k] == '.'
    ensures forall j | 0 <= j < k :: s[j] != '.'
    decreases |s|
  {
    if s == [] then 0 else if s[0] == '.' then 0 else 1 + DotIndex(s[1..])
  }

  /** Python's `float()` on text without sign: digits, an optional point, digits,
      with at least one digit in all. */
  function ParseUnsigned(b: string): Option<real> {
    var k := DotIndex(b);
    var ip := b[..k];
    var fp := if k < |b| then b[k + 1..] else "";
    DecimalParts(ip, fp)
  }

  /** The number with integer digits `ip` and fraction digits `fp`, when both are digits
      and there is at least one digit. */
  function DecimalParts(ip: string, fp: string): Option<real> {
    if AllDigits(ip) && AllDigits(fp) && |ip| + |fp| > 0 then
      Some(DigitsValue(ip) as real + FractionValue(fp))
    else None
  }

  /** Python's `float()`, restricted to plain decimal notation with an optional sign. */
  function ParseFloat(s: string): Option<real> {
    var signed := |s| > 0 && (s[0] == '-' || s[0] == '+');
    var body := if signed then s[1..] else s;
    match ParseUnsigned(body)
    case None => None
    case Some(v) => Some(if |s| > 0 && s[0] == '-' then -v else v)
  }

  /** The decimal literals, as a grammar: `digits`, `digits.`, `.digits` or `digits.digits`. */
  predicate IsUnsignedDecimal(b: string) {
    (|b| > 0 && AllDigits(b))
    || exists k | 0 <= k < |b| :: b[k] == '.' && AllDigits(b[..k]) && AllDigits(b[k + 1..]) && |b| > 1
  }

  predicate IsDecimal(s: string) {
    if |s| > 0 && (s[0] == '-' || s[0] == '+') then IsUnsignedDecimal(s[1..]) else IsUnsignedDecimal(s)
  }

  /** `float()` accepts exactly the decimal literals. */
  lemma ParseFloatDefinedIff(s: string)
    ensures ParseFloat(s).Some? <==> IsDecimal(s)
  {
    var b := if |s| > 0 && (s[0] == '-' || s[0] == '+') then s[1..] else s;
    ParseUnsignedDefinedIff(b);
  }

  lemma ParseUnsignedDefinedIff(b: string)
    ensures ParseUnsigned(b).Some? <==> IsUnsignedDecimal(b)
  {
    var k := DotIndex(b);
    if k == |b| {
      assert ParseUnsigned(b) == DecimalParts(b, "") by {
        assert b[..k] == b;
      }
      assert !exists j | 0 <= j < |b| :: b[j] == '.';
    } else {
      assert ParseUnsigned(b) == DecimalParts(b[..k], b[k + 1..]) by {
        ParseUnsignedAt(b, k);
      }
      assert !IsDigit(b[k]);
      forall j | 0 <= j < |b| && b[j] == '.'
        ensures j == k || !AllDigits(b[..j])
      {
        if j > k {
          assert b[..j][k] == '.';
        }
      }
    }
  }

  /** The rendering of a natural number in decimal digits. */
  function NatText(n: nat): (r: string)
    ensures |r| > 0 && AllDigits(r)
  {
    if n < 10 then [('0' as int + n) as char] else NatText(n / 10) + [('0' as int + n % 10) as char]
  }

  lemma {:induction false} DigitsValueNatText(n: nat)
    ensures DigitsValue(NatText(n)) == n
  {
    if n >= 10 {
      DigitsValueNatText(n / 10);
      var r := NatText(n);
      assert r[..|r| - 1] == NatText(n / 10);
    }
  }

  /** `float(str(n))` gives `n` back. */
  lemma NatTextRoundTrip(n: nat)
    ensures ParseFloat(NatText(n)) == Some(n as real)
  {
    var r := NatText(n);
    assert forall i | 0 <= i < |r| :: r[i] != '.';
    assert r[..|r|] == r;
    DigitsValueNatText(n);
  }

  /** `float(str(value).replace(",", "."))` when the field holds non-empty text;
      absent otherwise. */
  function NumField(fields: Fields, key: string): Option<real> {
    if key in fields && fields[key].Some? && fields[key].value != "" then
      ParseFloat(ReplaceComma(fields[key].value))
    else None
  }

  function ExtractNums(fields: Fields): Nums {
    Nums(
      NumField(fields, "Durchmesser"),
      NumField(fields, "Begrenzungsbox Breite"),
      NumField(fields, "Tiefe"),
      NumField(fields, "Begrenzungsbox Länge"),
      NumField(fields, "Kleinster Radius"),
      NumField(fields, "Fasendurchmesser"),
      NumField(fields, "Bohrdurchmesser"))
  }

  /** A field is absent when its key is missing, its value is `None` or empty, or
      its text is not a decimal number (after `,` becomes `.`); otherwise it is the value. */
  lemma NumFieldSpec(fields: Fields, key: string)
    ensures (key !in fields || fields[key] == None || fields[key] == Some("")) ==> NumField(fields, key) == None
    ensures key in fields && fields[key].Some? && !IsDecimal(ReplaceComma(fields[key].value)) ==>
      NumField(fields, key) == None
    ensures key in fields && fields[key].Some? && IsDecimal(ReplaceComma(fields[key].value)) ==>
      NumField(fields, key).Some?
  {
    if key in fields && fields[key].Some? {
      ParseFloatDefinedIff(ReplaceComma(fields[key].value));
    }
  }

  /** Texts that differ only in `,` against `.` give the same number. */
  lemma NumFieldCommaInsensitive(fields: Fields, key: string, s1: string, s2: string)
    requires ReplaceComma(s1) == ReplaceComma(s2)
    ensures NumField(fields[key := Some(s1)], key) == NumField(fields[key := Some(s2)], key)
  {
    assert |s1| == |ReplaceComma(s1)|;
  }

  /** A literal with a point reads as its integer part plus its fraction. */
  lemma ParseFloatPointed(ip: string, fp: string)
    requires AllDigits(ip) && AllDigits(fp) && |ip| > 0
    ensures ParseFloat(ip + "." + fp) == Some(DigitsValue(ip) as real + FractionValue(fp))
  {
    var t := ip + "." + fp;
    assert ParseFloat(t) == DecimalParts(ip, fp) by {
      PointedParts(ip, fp);
      ParseUnsignedAt(t, |ip|);
      assert t[0] == ip[0];
      ParseFloatUnsigned(t);
    }
    DecimalPartsOfDigits(ip, fp);
  }

  lemma DecimalPartsOfDigits(ip: string, fp: string)
    requires AllDigits(ip) && AllDigits(fp) && |ip| + |fp| > 0
    ensures DecimalParts(ip, fp) == Some(DigitsValue(ip) as real + FractionValue(fp))
  {
  }

  lemma PointedParts(ip: string, fp: string)
    requires AllDigits(ip)
    ensures var t := ip + "." + fp;
      |ip| < |t| && t[|ip|] == '.' && t[..|ip|] == ip && t[|ip| + 1..] == fp
      && forall j | 0 <= j < |ip| :: t[j] != '.'
  {
    var t := ip + "." + fp;
    assert forall j | 0 <= j < |ip| :: t[j] == ip[j];
  }

  /** Text whose first point is at `n` splits there. */
  lemma ParseUnsignedAt(t: string, n: int)
    requires 0 <= n < |t| && t[n] == '.' && forall j | 0 <= j < n :: t[j] != '.'
    ensures ParseUnsigned(t) == DecimalParts(t[..n], t[n + 1..])
  {
    assert DotIndex(t) == n;
  }

  /** Text that starts with a digit reads as `ParseUnsigned` of itself. */
  lemma ParseFloatUnsigned(t: string)
    requires |t| > 0 && IsDigit(t[0])
    ensures ParseFloat(t) == ParseUnsigned(t)
  {
  }

  /** The digits after the point make up less than one. */
  lemma {:induction false} FractionValueBounds(fp: string)
    requires AllDigits(fp)
    ensures 0.0 <= FractionValue(fp) < 1.0
    decreases |fp|
  {
    if fp != [] {
      FractionValueBounds(fp[1..]);
    }
  }

  /** Every decimal literal a field can hold reads as its value: an optional sign, the
      integer digits, then optionally a comma or a point and the fraction digits, with at
      least one digit in all ("-2,5", "+3", ".5", "012", "9.500000" alike). The value of
      the digits is `DecimalParts(ip, fp)`, that is `DigitsValue(ip) + FractionValue(fp)`
      (`DecimalPartsOfDigits`). */
  lemma NumFieldDecimal(fields: Fields, key: string, sign: string, ip: string, sep: string, fp: string)
    requires sign == "" || sign == "+" || sign == "-"
    requires (sep == "" && fp == "") || sep == "," || sep == "."
    requires AllDigits(ip) && AllDigits(fp) && |ip| + |fp| > 0
    requires key in fields && fields[key] == Some(sign + ip + sep + fp)
    ensures DecimalParts(ip, fp).Some?
    ensures NumField(fields, key) == if sign == "-" then Some(-DecimalParts(ip, fp).value) else DecimalParts(ip, fp)
  {
    var b := ip + (if sep == "" then "" else ".") + fp;
    assert ReplaceComma(sign + ip + sep + fp) == sign + b by {
      CommaToPoint(sign, ip, sep, fp);
    }
    assert |b| > 0 && b[0] != '-' && b[0] != '+' && ParseUnsigned(b) == DecimalParts(ip, fp) by {
      UnsignedDecimal(ip, sep, fp);
    }
    NumFieldOf(fields, key, sign + ip + sep + fp, sign, b, DecimalParts(ip, fp));
  }

  /** The unsigned part of a decimal literal, with its separator already a point. */
  lemma UnsignedDecimal(ip: string, sep: string, fp: string)
    requires (sep == "" && fp == "") || sep == "," || sep == "."
    requires AllDigits(ip) && AllDigits(fp) && |ip| + |fp| > 0
    ensures var b := ip + (if sep == "" then "" else ".") + fp;
      && |b| > 0 && b[0] != '-' && b[0] != '+'
      && ParseUnsigned(b) == DecimalParts(ip, fp)
  {
    if sep == "" {
      assert ip + "" + fp == ip;
      UnsignedPlain(ip);
      assert ip[0] == ip[0];
    } else {
      var b := ip + "." + fp;
      UnsignedPointed(ip, fp);
      if |ip| > 0 {
        assert b[0] == ip[0];
      }
    }
  }

  /** A sign in front of unsigned text negates it or leaves it as it is. */
  lemma SignedText(sign: string, b: string, o: Option<real>)
    requires sign == "" || sign == "+" || sign == "-"
    requires |b| > 0 && b[0] != '-' && b[0] != '+' && ParseUnsigned(b) == o && o.Some?
    ensures ParseFloat(sign + b) == if sign == "-" then Some(-o.value) else o
  {
    var t := sign + b;
    if sign == "" {
      assert t == b;
    } else {
      assert |t| > 0 && t[0] == sign[0] && t[1..] == b;
      assert ParseFloat(t) == match ParseUnsigned(b)
        case None => None
        case Some(v) => Some(if sign[0] == '-' then -v else v);
    }
  }

  /** A field whose text, comma replaced, is a sign and an unsigned number. */
  lemma NumFieldOf(fields: Fields, key: string, s: string, sign: string, b: string, o: Option<real>)
    requires sign == "" || sign == "+" || sign == "-"
    requires key in fields && fields[key] == Some(s) && s != "" && ReplaceComma(s) == sign + b
    requires |b| > 0 && b[0] != '-' && b[0] != '+' && ParseUnsigned(b) == o && o.Some?
    ensures NumField(fields, key) == if sign == "-" then Some(-o.value) else o
  {
    SignedText(sign, b, o);
  }

  lemma CommaToPoint(sign: string, ip: string, sep: string, fp: string)
    requires AllDigits(ip) && AllDigits(fp) && !(',' in sign)
    requires sep == "" || sep == "," || sep == "."
    ensures ReplaceComma(sign + ip + sep + fp) == sign + (ip + (if sep == "" then "" else ".") + fp)
  {
    var s := sign + ip + sep + fp;
    var t := sign + (ip + (if sep == "" then "" else ".") + fp);
    assert |s| == |t|;
    forall i | 0 <= i < |s| ensures ReplaceComma(s)[i] == t[i] {
      if i < |sign| {
        assert s[i] == sign[i] == t[i];
      } else if i < |sign| + |ip| {
        assert s[i] == ip[i - |sign|] == t[i];
      } else if i >= |sign| + |ip| + |sep| {
        assert s[i] == fp[i - |sign| - |ip| - |sep|] == t[i];
      }
    }
  }

  /** Unsigned text with a point: integer digits, the point and fraction digits. */
  lemma UnsignedPointed(ip: string, fp: string)
    requires AllDigits(ip) && AllDigits(fp) && |ip| + |fp| > 0
    ensures ParseUnsigned(ip + "." + fp) == DecimalParts(ip, fp)
  {
    PointedParts(ip, fp);
    SplitAtPoint(ip + "." + fp, ip, fp);
  }

  lemma SplitAtPoint(t: string, ip: string, fp: string)
    requires |ip| < |t| && t[|ip|] == '.' && t[..|ip|] == ip && t[|ip| + 1..] == fp
    requires forall j | 0 <= j < |ip| :: t[j] != '.'
    ensures ParseUnsigned(t) == DecimalParts(ip, fp)
  {
    ParseUnsignedAt(t, |ip|);
  }

  /** Unsigned text without a point: its digits. */
  lemma UnsignedPlain(ip: string)
    requires AllDigits(ip) && |ip| > 0
    ensures ParseUnsigned(ip) == DecimalParts(ip, "")
  {
    assert forall j | 0 <= j < |ip| :: ip[j] != '.';
    assert DotIndex(ip) == |ip|;
    assert ip[..|ip|] == ip;
  }

  /** Text that is not a number reads as absent rather than failing. */
  lemma UnparsableExample()
    ensures NumField(map["Durchmesser" := Some("n/a")], "Durchmesser") == None
  {
    assert ParseFloat(ReplaceComma("n/a")) == None by {
      assert ReplaceComma("n/a") == "n/a" by { assert |ReplaceComma("n/a")| == 3; }
      assert !IsDigit("n/a"[0]);
    }
  }
}
