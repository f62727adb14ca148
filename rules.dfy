/** The rule table of rule_engine.py (lines 110-562) as data. A rule has trigger
    keywords, a predicate over the feature type, the OCR fields and the seven parsed
    numbers, and an action: a fixed (subdirectory, prefix) pair, or a function that
    picks one and may decline. The table is rebuilt on each call; the only thing it
    captures is whether the "Kulissen-2025" root is active (lines 39-40). */
module Rules {
  import opened Strings
  import opened FieldValues

  /** What every predicate and dynamic action is applied to. */
  datatype Args = Args(ft: string, fields: Fields, n: Nums)

  /** A subdirectory of the material root and the two-digit file prefix to find there. */
  datatype Target = Target(subdir: string, prefix: string)

  datatype Action = Static(target: Target) | Dynamic(choose: Args -> Option<Target>)

  datatype Rule = Rule(keywords: seq<string>, pred: Args -> bool, act: Action)

  // Range tests as the predicates write them; an absent number fails every test.
  predicate Closed(x: Option<real>, lo: real, hi: real) { x.Some? && lo <= x.value <= hi }
  predicate HalfOpen(x: Option<real>, lo: real, hi: real) { x.Some? && lo <= x.value < hi }
  predicate LeftOpen(x: Option<real>, lo: real, hi: real) { x.Some? && lo < x.value <= hi }
  predicate Above(x: Option<real>, lo: real) { x.Some? && x.value > lo }
  predicate AtLeast(x: Option<real>, lo: real) { x.Some? && x.value >= lo }
  predicate AtMost(x: Option<real>, hi: real) { x.Some? && x.value <= hi }

  const PlanDir := @"01_Plan-Aussen-Fase-Tasche"
  const NutenRueckzugDir := @"07_NUTEN\NUTEN mit Rückzug"
  const NutenDir := @"07_NUTEN"
  const ProfitDir := @"02_Taschen\Profit"
  const ASeiteDir := @"01_A-Seite 2312"
  const BSeiteDir := @"02_B-Seite 2312"
  const PassungDir := @"06_Passung Fräsen"
  const SenkungDir := @"05_DGB\nur Senkung"
  const TrennenDir := @"13_Trennen"
  const DgbRueckzugDir := @"05_DGB\+DGB mit Rückzug"
  const DgbDir := @"05_DGB"
  const BohrungenRueckzugDir := @"03_Bohrungen\Bohrungen mit Rückzug"
  const BohrungenDir := @"03_Bohrungen"

  /** Facing: the action picks the file from the box size, the depth and the feature text. */
  function PlanRules(): seq<Rule> {
    [ Rule(["plan"],
        (a: Args) => Closed(a.n.tief, 0.0, 62.0) && LeftOpen(a.n.bboxB, 0.0, 2000.0) && LeftOpen(a.n.bboxL, 0.0, 2000.0),
        Dynamic((a: Args) => Some(Target(PlanDir,
          if Closed(a.n.bboxL, 0.0, 50.0) && Closed(a.n.bboxB, 0.0, 60.0) && Closed(a.n.tief, 0.0, 40.0) then "06"
          else if Closed(a.n.bboxL, 50.01, 160.0) && Closed(a.n.bboxB, 0.0, 45.0) && Closed(a.n.tief, 0.0, 40.0) then "04"
          else if Closed(a.n.tief, 40.01, 52.0) then "02"
          else if Contains(a.ft, "plan 10") then "03"
          else if Contains(a.ft, "plan 16") then "07"
          else "01")))) ]
  }

  function NutenRueckzugRules(): seq<Rule> {
    [ Rule(["nuten rückzug"], (a: Args) => Closed(a.n.bboxB, 3.1, 4.0), Static(Target(NutenRueckzugDir, "01"))),
      Rule(["nuten rückzug"], (a: Args) => Closed(a.n.bboxB, 4.1, 6.0), Static(Target(NutenRueckzugDir, "02"))),
      Rule(["nuten rückzug"], (a: Args) => Closed(a.n.bboxB, 6.1, 8.0), Static(Target(NutenRueckzugDir, "03"))),
      Rule(["nuten rückzug"], (a: Args) => Closed(a.n.bboxB, 8.1, 9.0), Static(Target(NutenRueckzugDir, "04"))),
      Rule(["nuten rückzug"], (a: Args) => Closed(a.n.bboxB, 9.1, 14.0), Static(Target(NutenRueckzugDir, "05"))),
      Rule(["nuten rückzug"], (a: Args) => Closed(a.n.bboxB, 14.1, 18.0), Static(Target(NutenRueckzugDir, "06"))),
      Rule(["nuten rückzug"], (a: Args) => Closed(a.n.bboxB, 18.1, 22.0), Static(Target(NutenRueckzugDir, "07"))) ]
  }

  function NutenRules(): seq<Rule> {
    [ Rule(["nuten"], (a: Args) => Closed(a.n.bboxB, 3.1, 4.0), Static(Target(NutenDir, "01"))),
      Rule(["nuten"], (a: Args) => Closed(a.n.bboxB, 4.1, 6.0), Static(Target(NutenDir, "02"))),
      Rule(["nuten"], (a: Args) => Closed(a.n.bboxB, 6.1, 8.0), Static(Target(NutenDir, "03"))),
      Rule(["nuten"], (a: Args) => Closed(a.n.bboxB, 8.1, 9.0), Static(Target(NutenDir, "04"))),
      Rule(["nuten"], (a: Args) => Closed(a.n.bboxB, 9.1, 14.0), Static(Target(NutenDir, "05"))),
      Rule(["nuten"], (a: Args) => Closed(a.n.bboxB, 14.1, 18.0), Static(Target(NutenDir, "06"))),
      Rule(["nuten"], (a: Args) => Closed(a.n.bboxB, 18.1, 22.0), Static(Target(NutenDir, "07"))) ]
  }

  /** Open pockets, chosen by the smallest radius. */
  function TascheRadiusRules(): seq<Rule> {
    [ Rule(["tasche profit radius"], (a: Args) => Closed(a.n.tief, 0.0, 18.0) && Closed(a.n.klR, 1.51, 2.0), Static(Target(ProfitDir, "01"))),
      Rule(["tasche profit radius"], (a: Args) => Closed(a.n.tief, 0.0, 21.0) && Closed(a.n.klR, 2.01, 2.5), Static(Target(ProfitDir, "02"))),
      Rule(["tasche profit radius"], (a: Args) => Closed(a.n.tief, 0.0, 21.0) && Closed(a.n.klR, 2.51, 3.0), Static(Target(ProfitDir, "03"))),
      Rule(["tasche profit radius"], (a: Args) => Closed(a.n.tief, 0.0, 20.0) && Closed(a.n.klR, 3.01, 4.0), Static(Target(ProfitDir, "04"))),
      Rule(["tasche profit radius"], (a: Args) => Closed(a.n.tief, 0.0, 25.0) && Closed(a.n.klR, 4.01, 5.0), Static(Target(ProfitDir, "05"))),
      Rule(["tasche profit radius"], (a: Args) => Closed(a.n.tief, 0.0, 40.0) && Closed(a.n.klR, 5.01, 6.0), Static(Target(ProfitDir, "07"))),
      Rule(["tasche profit radius"], (a: Args) => Closed(a.n.tief, 0.0, 35.0) && Closed(a.n.klR, 6.01, 8.0), Static(Target(ProfitDir, "08"))),
      Rule(["tasche profit radius"], (a: Args) => Closed(a.n.tief, 0.0, 40.0) && Closed(a.n.klR, 8.01, 10.0), Static(Target(ProfitDir, "10"))),
      Rule(["tasche profit radius"], (a: Args) => Closed(a.n.tief, 0.0, 40.0) && Above(a.n.klR, 10.0), Static(Target(ProfitDir, "11"))),
      Rule(["tasche profit radius"], (a: Args) => Closed(a.n.tief, 40.01, 52.0) && Above(a.n.klR, 10.0), Static(Target(ProfitDir, "14"))) ]
  }

  /** Pockets chosen by their size and depth. */
  function TascheRules(): seq<Rule> {
    [ Rule(["tasche profit"],
        (a: Args) => Closed(a.n.tief, 0.0, 25.0) && Closed(a.n.bboxL, 10.0, 2000.0) && Closed(a.n.bboxB, 10.0, 2000.0) && Closed(a.n.klR, 2.5, 4.98),
        Static(Target(ProfitDir, "06"))),
      Rule(["tasche profit"],
        (a: Args) => Closed(a.n.tief, 0.0, 40.0) && Closed(a.n.bboxL, 30.01, 2000.0) && Closed(a.n.bboxB, 30.01, 2000.0),
        Static(Target(ProfitDir, "11"))),
      Rule(["tasche profit"],
        (a: Args) => Closed(a.n.tief, 40.01, 52.0) && Closed(a.n.bboxL, 30.01, 2000.0) && Closed(a.n.bboxB, 30.01, 2000.0),
        Static(Target(ProfitDir, "14"))),
      Rule(["tasche profit"],
        (a: Args) => Closed(a.n.tief, 0.0, 40.0) && Closed(a.n.bboxL, 15.01, 30.0) && Closed(a.n.bboxB, 15.01, 30.0),
        Static(Target(ProfitDir, "07"))),
      Rule(["tasche profit"],
        (a: Args) => Closed(a.n.tief, 0.0, 21.0) && Closed(a.n.bboxL, 10.01, 15.0) && Closed(a.n.bboxB, 10.01, 15.0),
        Static(Target(ProfitDir, "03"))),
      Rule(["tasche profit"],
        (a: Args) => Closed(a.n.tief, 0.0, 18.0) && Closed(a.n.bboxL, 0.0, 10.0) && Closed(a.n.bboxB, 0.0, 10.0),
        Static(Target(ProfitDir, "01"))) ]
  }

  /** Deep drilling on the Kulissen root; the action declines unmatched diameter pairs. */
  function BohrungTiefKmRule(kulissen: bool): Rule {
    Rule(["bohrung tief km"],
      (a: Args) => kulissen && a.n.dia.Some? && a.n.bohrDia.Some?,
      Dynamic((a: Args) =>
        if a.n.dia == Some(12.0) && AtLeast(a.n.bohrDia, 18.0) then Some(Target(BSeiteDir, "10"))
        else if a.n.dia == Some(14.0) && AtLeast(a.n.bohrDia, 20.0) then Some(Target(BSeiteDir, "11"))
        else if a.n.dia == Some(17.5) && AtLeast(a.n.bohrDia, 27.0) then Some(Target(BSeiteDir, "12"))
        else if a.n.dia == Some(22.0) && AtLeast(a.n.bohrDia, 33.0) then Some(Target(BSeiteDir, "13"))
        else None))
  }

  /** Fit milling by diameter; "08" and "09" overlap on [14.51, 18.5]. */
  function PassungRules(): seq<Rule> {
    [ Rule(["passung fräsen"], (a: Args) => Closed(a.n.dia, 1.52, 2.5), Static(Target(PassungDir, "01"))),
      Rule(["passung fräsen"], (a: Args) => Closed(a.n.dia, 2.51, 3.5), Static(Target(PassungDir, "02"))),
      Rule(["passung fräsen"], (a: Args) => Closed(a.n.dia, 3.51, 4.5), Static(Target(PassungDir, "03"))),
      Rule(["passung fräsen"], (a: Args) => Closed(a.n.dia, 4.51, 6.5), Static(Target(PassungDir, "04"))),
      Rule(["passung fräsen"], (a: Args) => Closed(a.n.dia, 6.51, 8.5), Static(Target(PassungDir, "05"))),
      Rule(["passung fräsen"], (a: Args) => Closed(a.n.dia, 8.51, 10.5), Static(Target(PassungDir, "06"))),
      Rule(["passung fräsen"], (a: Args) => Closed(a.n.dia, 10.51, 14.5), Static(Target(PassungDir, "07"))),
      Rule(["passung fräsen"], (a: Args) => Closed(a.n.dia, 14.51, 18.5), Static(Target(PassungDir, "08"))),
      Rule(["passung fräsen"], (a: Args) => Closed(a.n.dia, 12.51, 23.5), Static(Target(PassungDir, "09"))),
      Rule(["passung fräsen"], (a: Args) => Closed(a.n.dia, 23.51, 31.0) && Closed(a.n.tief, 0.0, 40.0), Static(Target(PassungDir, "10"))),
      Rule(["passung fräsen"], (a: Args) => Closed(a.n.dia, 31.01, 39.0) && Closed(a.n.tief, 0.0, 40.0), Static(Target(PassungDir, "11"))),
      Rule(["passung fräsen"], (a: Args) => Closed(a.n.dia, 31.01, 39.0) && Closed(a.n.tief, 40.01, 52.0), Static(Target(PassungDir, "13"))) ]
  }

  /** Drilling with countersink. */
  function BohrungKmRules(): seq<Rule> {
    [ Rule(["bohrung km"], (a: Args) => Closed(a.n.dia, 2.5, 3.7), Static(Target(SenkungDir, "01"))),
      Rule(["bohrung km"], (a: Args) => Closed(a.n.dia, 4.0, 5.0), Static(Target(SenkungDir, "02"))),
      Rule(["bohrung km"], (a: Args) => Closed(a.n.dia, 5.1, 6.2), Static(Target(SenkungDir, "03"))),
      Rule(["bohrung km"], (a: Args) => Closed(a.n.dia, 6.3, 8.7), Static(Target(SenkungDir, "04"))),
      Rule(["bohrung km"], (a: Args) => Closed(a.n.dia, 8.9, 10.0), Static(Target(SenkungDir, "05"))),
      Rule(["bohrung km"], (a: Args) => Closed(a.n.dia, 10.1, 10.8), Static(Target(SenkungDir, "06"))),
      Rule(["bohrung km"], (a: Args) => Closed(a.n.dia, 10.9, 12.0), Static(Target(SenkungDir, "07"))),
      Rule(["bohrung km"], (a: Args) => Closed(a.n.dia, 12.1, 14.0), Static(Target(SenkungDir, "08"))),
      Rule(["bohrung km"], (a: Args) => Closed(a.n.dia, 16.1, 18.0), Static(Target(SenkungDir, "09"))) ]
  }

  /** Parting applies unconditionally. */
  function TrennenRules(): seq<Rule> {
    [ Rule(["trennen"], (a: Args) => true, Static(Target(TrennenDir, "01"))) ]
  }

  function BohrungRueckzugRules(): seq<Rule> {
    [ Rule(["bohrung rückzug"], (a: Args) => HalfOpen(a.n.dia, 2.0, 6.97), Static(Target(DgbRueckzugDir, "01"))),
      Rule(["bohrung rückzug"], (a: Args) => HalfOpen(a.n.dia, 7.02, 9.29), Static(Target(DgbRueckzugDir, "01"))),
      Rule(["bohrung rückzug"], (a: Args) => HalfOpen(a.n.dia, 6.99, 7.01), Static(Target(DgbRueckzugDir, "03"))),
      Rule(["bohrung rückzug"], (a: Args) => Closed(a.n.dia, 9.3, 17.5), Static(Target(DgbRueckzugDir, "02"))),
      Rule(["bohrung rückzug"], (a: Args) => HalfOpen(a.n.dia, 17.99, 18.01), Static(Target(DgbRueckzugDir, "04"))),
      Rule(["bohrung rückzug"], (a: Args) => HalfOpen(a.n.dia, 19.99, 20.01), Static(Target(DgbRueckzugDir, "05"))),
      Rule(["bohrung rückzug"], (a: Args) => HalfOpen(a.n.dia, 21.99, 22.01), Static(Target(DgbRueckzugDir, "06"))),
      Rule(["bohrung rückzug"], (a: Args) => HalfOpen(a.n.dia, 25.99, 26.01), Static(Target(DgbRueckzugDir, "07"))) ]
  }

  /** General drilling; the special 7.8 drill is declared first. */
  function BohrungRules(): seq<Rule> {
    [ Rule(["bohrung"], (a: Args) => HalfOpen(a.n.dia, 7.79, 7.81), Static(Target(DgbDir, "08"))),
      Rule(["bohrung"], (a: Args) => HalfOpen(a.n.dia, 2.0, 6.97), Static(Target(DgbDir, "01"))),
      Rule(["bohrung"], (a: Args) => HalfOpen(a.n.dia, 7.81, 9.29), Static(Target(DgbDir, "01"))),
      Rule(["bohrung"], (a: Args) => HalfOpen(a.n.dia, 6.99, 7.01), Static(Target(DgbDir, "03"))),
      Rule(["bohrung"], (a: Args) => Closed(a.n.dia, 9.3, 17.5), Static(Target(DgbDir, "02"))),
      Rule(["bohrung"], (a: Args) => HalfOpen(a.n.dia, 17.99, 18.01), Static(Target(DgbDir, "04"))),
      Rule(["bohrung"], (a: Args) => HalfOpen(a.n.dia, 19.99, 20.01), Static(Target(DgbDir, "05"))),
      Rule(["bohrung"], (a: Args) => HalfOpen(a.n.dia, 21.99, 22.01), Static(Target(DgbDir, "06"))),
      Rule(["bohrung"], (a: Args) => HalfOpen(a.n.dia, 25.99, 26.01), Static(Target(DgbDir, "07"))) ]
  }

  function GewindeRueckzugRules(): seq<Rule> {
    [ Rule(["gewinde m rückzug"], (a: Args) => Closed(a.n.dia, 2.0, 7.0), Static(Target(BohrungenRueckzugDir, "03"))),
      Rule(["gewinde m rückzug"], (a: Args) => LeftOpen(a.n.dia, 7.01, 12.5), Static(Target(BohrungenRueckzugDir, "04"))) ]
  }

  function GewindeRules(): seq<Rule> {
    [ Rule(["gewinde m", "gewinde"], (a: Args) => Closed(a.n.dia, 2.0, 7.0), Static(Target(BohrungenDir, "03"))),
      Rule(["gewinde m", "gewinde"], (a: Args) => LeftOpen(a.n.dia, 7.01, 12.5), Static(Target(BohrungenDir, "04"))) ]
  }

  function ReibRueckzugRules(): seq<Rule> {
    [ Rule(["reib ohne o rückzug"], (a: Args) => Closed(a.n.dia, 3.0, 8.05), Static(Target(BohrungenRueckzugDir, "05"))),
      Rule(["reib ohne o rückzug"], (a: Args) => Closed(a.n.dia, 10.0, 12.05), Static(Target(BohrungenRueckzugDir, "06"))),
      Rule(["reib mit o rückzug"], (a: Args) => Closed(a.n.dia, 3.0, 8.05), Static(Target(BohrungenRueckzugDir, "01"))),
      Rule(["reib mit o rückzug"], (a: Args) => Closed(a.n.dia, 10.0, 12.05), Static(Target(BohrungenRueckzugDir, "02"))) ]
  }

  function ReibRules(): seq<Rule> {
    [ Rule(["reib ohne o"], (a: Args) => Closed(a.n.dia, 3.0, 8.05), Static(Target(BohrungenDir, "05"))),
      Rule(["reib ohne o"], (a: Args) => Closed(a.n.dia, 10.0, 12.05), Static(Target(BohrungenDir, "06"))),
      Rule(["reib mit o"], (a: Args) => Closed(a.n.dia, 3.0, 8.05), Static(Target(BohrungenDir, "01"))),
      Rule(["reib mit o"], (a: Args) => Closed(a.n.dia, 10.0, 12.05), Static(Target(BohrungenDir, "02"))) ]
  }

  /** The rules that apply only under the "Kulissen-2025" root. */
  function KulissenRules(kulissen: bool): seq<Rule> {
    [ Rule(["ak kulisse a"],
        (a: Args) => kulissen && Closed(a.n.tief, 0.0, 80.0),
        Dynamic((a: Args) => Some(Target(ASeiteDir, "01")))),
      Rule(["ak kulisse b"],
        (a: Args) => kulissen && Closed(a.n.tief, 0.0, 80.0),
        Dynamic((a: Args) => Some(Target(BSeiteDir, if Closed(a.n.tief, 0.0, 30.0) then "01" else "02")))),
      Rule(["d16", "di6"],
        (a: Args) => kulissen && a.n.dia == Some(16.0) && a.n.faseDia.Some?,
        Dynamic((a: Args) =>
          if a.n.faseDia == Some(22.0) then Some(Target(BSeiteDir, "14"))
          else if a.n.faseDia == Some(18.0) then Some(Target(ASeiteDir, "02"))
          else None)),
      Rule(["np"],
        (a: Args) => kulissen && a.n.dia == Some(6.8),
        Static(Target(ASeiteDir, "03"))),
      Rule(["wand wurm"],
        (a: Args) => kulissen && a.n.klR.Some?,
        Dynamic((a: Args) => Some(Target(BSeiteDir, if AtMost(a.n.klR, 12.0) then "07" else "08")))),
      Rule(["wurm"],
        (a: Args) => kulissen && a.n.klR.Some?,
        Dynamic((a: Args) => Some(Target(BSeiteDir,
          if AtMost(a.n.klR, 15.0) then "03"
          else if AtMost(a.n.klR, 24.0) then "04"
          else if AtMost(a.n.klR, 34.0) then "05"
          else "06")))),
      Rule(["m12"],
        (a: Args) => kulissen && LeftOpen(a.n.dia, 7.01, 12.5),
        Static(Target(BSeiteDir, "09"))),
      Rule(["bohrung passung"],
        (a: Args) => kulissen && a.n.dia.Some?,
        Dynamic((a: Args) =>
          if a.n.dia == Some(9.9) then Some(Target(BSeiteDir, "15"))
          else if a.n.dia == Some(11.9) then Some(Target(BSeiteDir, "16"))
          else if a.n.dia == Some(15.9) then Some(Target(BSeiteDir, "17"))
          else if a.n.dia == Some(19.9) then Some(Target(BSeiteDir, "18"))
          else None)),
      Rule(["tasche d24"],
        (a: Args) => kulissen,
        Static(Target(BSeiteDir, "19"))),
      Rule(["m10x1"],
        (a: Args) => kulissen && a.n.dia == Some(9.0),
        Static(Target(BSeiteDir, "20"))) ]
  }

  /** The rules that precede the general drilling rules in declaration order. */
  function RulesBeforeBohrung(kulissen: bool): seq<Rule> {
    PlanRules() + NutenRueckzugRules() + NutenRules() + TascheRadiusRules() + TascheRules()
    + [BohrungTiefKmRule(kulissen)] + PassungRules() + BohrungKmRules() + TrennenRules()
    + BohrungRueckzugRules()
  }

  function RulesAfterBohrung(kulissen: bool): seq<Rule> {
    GewindeRueckzugRules() + GewindeRules() + ReibRueckzugRules() + ReibRules() + KulissenRules(kulissen)
  }

  /** The whole table in declaration order. */
  function Table(kulissen: bool): seq<Rule> {
    RulesBeforeBohrung(kulissen) + BohrungRules() + RulesAfterBohrung(kulissen)
  }

  /** Where the groups sit in the table. */
  const BohrungTiefKmIndex := 31
  const BohrungStart := 62
  const KulissenStart := 83
  const TableSize := 93

  predicate IsKulissenGuarded(i: int) { i == BohrungTiefKmIndex || KulissenStart <= i < TableSize }

  lemma TableLayout(kulissen: bool)
    ensures |RulesBeforeBohrung(kulissen)| == BohrungStart
    ensures |Table(kulissen)| == TableSize
    ensures Table(kulissen)[BohrungTiefKmIndex] == BohrungTiefKmRule(kulissen)
    ensures Table(kulissen)[BohrungStart..BohrungStart + |BohrungRules()|] == BohrungRules()
    ensures Table(kulissen)[KulissenStart..] == KulissenRules(kulissen)
  {
    var before := RulesBeforeBohrung(kulissen);
    assert before[BohrungTiefKmIndex] == BohrungTiefKmRule(kulissen);
    var t := Table(kulissen);
    assert t[KulissenStart..] == RulesAfterBohrung(kulissen)[|RulesAfterBohrung(kulissen)| - 10..];
  }

  /** Without the Kulissen root, no rule guarded by it can pass its predicate
      (rule_engine.py, lines 274-284 and 466-557). */
  lemma KulissenRulesNeedKulissenRoot(i: int, a: Args)
    requires 0 <= i < TableSize && IsKulissenGuarded(i)
    ensures !Table(false)[i].pred(a)
  {
    TableLayout(false);
    if i == BohrungTiefKmIndex {
      assert !BohrungTiefKmRule(false).pred(a);
    } else {
      var t := Table(false);
      assert t[i] == t[KulissenStart..][i - KulissenStart];
      KulissenGroupNeedsRoot(i - KulissenStart, a);
    }
  }

  lemma KulissenGroupNeedsRoot(j: int, a: Args)
    requires 0 <= j < |KulissenRules(false)|
    ensures !KulissenRules(false)[j].pred(a)
  {
  }

  predicate NoRuleKeyed(rs: seq<Rule>, kws: seq<string>) {
    forall j | 0 <= j < |rs| :: rs[j].keywords != kws
  }

  lemma NoRuleKeyedConcat(a: seq<Rule>, b: seq<Rule>, kws: seq<string>)
    requires NoRuleKeyed(a, kws) && NoRuleKeyed(b, kws)
    ensures NoRuleKeyed(a + b, kws)
  {
    forall j | 0 <= j < |a + b| ensures (a + b)[j].keywords != kws {
      if j >= |a| { assert (a + b)[j] == b[j - |a|]; }
    }
  }

  lemma NoBohrungBeforeBohrungRules(kulissen: bool)
    ensures NoRuleKeyed(RulesBeforeBohrung(kulissen), ["bohrung"])
  {
    var kw := ["bohrung"];
    var g0 := PlanRules() + NutenRueckzugRules();
    NoRuleKeyedConcat(PlanRules(), NutenRueckzugRules(), kw);
    var g1 := g0 + NutenRules();
    NoRuleKeyedConcat(g0, NutenRules(), kw);
    var g2 := g1 + TascheRadiusRules();
    NoRuleKeyedConcat(g1, TascheRadiusRules(), kw);
    var g3 := g2 + TascheRules();
    NoRuleKeyedConcat(g2, TascheRules(), kw);
    var g4 := g3 + [BohrungTiefKmRule(kulissen)];
    NoRuleKeyedConcat(g3, [BohrungTiefKmRule(kulissen)], kw);
    var g5 := g4 + PassungRules();
    NoRuleKeyedConcat(g4, PassungRules(), kw);
    var g6 := g5 + BohrungKmRules();
    NoRuleKeyedConcat(g5, BohrungKmRules(), kw);
    var g7 := g6 + TrennenRules();
    NoRuleKeyedConcat(g6, TrennenRules(), kw);
    NoRuleKeyedConcat(g7, BohrungRueckzugRules(), kw);
  }

  /** The 7.8 special drill is the first rule whose only keyword is "bohrung"
      (rule_engine.py, lines 389-418), and a diameter of 7.8 passes its predicate. */
  lemma SpecialDrillDeclaredFirst(kulissen: bool)
    ensures Table(kulissen)[BohrungStart].keywords == ["bohrung"]
    ensures Table(kulissen)[BohrungStart].pred(Args("bohrung", map[], Nums(Some(7.8), None, None, None, None, None, None)))
    ensures Table(kulissen)[BohrungStart].act == Static(Target(DgbDir, "08"))
    ensures forall j | 0 <= j < BohrungStart :: Table(kulissen)[j].keywords != ["bohrung"]
  {
    TableLayout(kulissen);
    NoBohrungBeforeBohrungRules(kulissen);
    var before := RulesBeforeBohrung(kulissen);
    assert Table(kulissen)[BohrungStart] == BohrungRules()[0];
    forall j | 0 <= j < BohrungStart ensures Table(kulissen)[j].keywords != ["bohrung"] {
      assert Table(kulissen)[j] == before[j];
    }
  }
}
