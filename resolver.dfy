/** `find_prc_path_by_rules` (rule_engine.py, lines 30-689): from the feature type, the
    OCR fields and the material root, find the `.prc` file of the first rule, in
    evaluation order, that passes all four gates (keyword, predicate, action, file
    lookup). The file system is a snapshot, and the path operations `os.path.join`,
    `os.path.normpath` and `os.path.basename` are parameters. */
module Resolver {
  import opened Strings
  import opened Seqs
  import opened FieldValues
  import opened Rules
  import opened Keywords

  // ---------------------------------------------------------------------------------
  // Evaluation order (line 570): a stable sort by the length of the longest keyword,
  // longest first. Sorting rule indices by (length descending, index ascending) is
  // exactly that stable order.

  /** `len(max(keywords, key=len))` */
  function MaxKeyLen(kws: seq<string>): (m: nat)
    ensures forall j | 0 <= j < |kws| :: |kws[j]| <= m
    ensures |kws| > 0 ==> exists j | 0 <= j < |kws| :: |kws[j]| == m
    decreases |kws|
  {
    if kws == [] then 0
    else
      var rest := MaxKeyLen(kws[1..]);
      assert forall j | 1 <= j < |kws| :: kws[j] == kws[1..][j - 1];
      if |kws[0]| >= rest then |kws[0]| else rest
  }

  function KeyLen(t: seq<Rule>, i: int): nat {
    if 0 <= i < |t| then MaxKeyLen(t[i].keywords) else 0
  }

  /** Rule `i` of `t` is tried before rule `j`. */
  function TriedBefore(t: seq<Rule>): (int, int) -> bool {
    (i: int, j: int) => KeyLen(t, i) > KeyLen(t, j) || (KeyLen(t, i) == KeyLen(t, j) && i < j)
  }

  function Indices(n: nat): seq<int> {
    seq(n, i => i)
  }

  /** The declaration indices of the rules in the order the loop visits them. */
  function EvalOrder(t: seq<Rule>): (o: seq<int>)
    ensures |o| == |t|
  {
    var o := SortBy(Indices(|t|), TriedBefore(t));
    SortByPermutes(Indices(|t|), TriedBefore(t));
    assert |o| == |multiset(o)|;
    o
  }

  /** The evaluation order visits every rule exactly once, longer keywords first and,
      among equal lengths, in declaration order. */
  lemma EvalOrderSpec(t: seq<Rule>)
    ensures |EvalOrder(t)| == |t|
    ensures forall p | 0 <= p < |t| :: 0 <= EvalOrder(t)[p] < |t|
    ensures forall i | 0 <= i < |t| :: i in EvalOrder(t)
    ensures forall p, q | 0 <= p < q < |t| :: TriedBefore(t)(EvalOrder(t)[p], EvalOrder(t)[q])
  {
    var lt := TriedBefore(t);
    var ix := Indices(|t|);
    var o := EvalOrder(t);
    assert IsStrictTotalOrder(lt);
    SortByCorrect(ix, lt);
    SortByDistinct(ix, lt);
    assert |o| == |multiset(o)| == |multiset(ix)| == |t|;
    forall p | 0 <= p < |t| ensures 0 <= o[p] < |t| {
      assert o[p] in multiset(ix);
    }
    forall i | 0 <= i < |t| ensures i in o {
      assert ix[i] == i;
      assert i in multiset(o);
    }
  }

  /** The rules of `t` in evaluation order. */
  function SortedRules(t: seq<Rule>): (r: seq<Rule>)
    ensures |r| == |t|
  {
    EvalOrderSpec(t);
    seq(|t|, p requires 0 <= p < |t| => t[EvalOrder(t)[p]])
  }

  /** A rule with a longer longest keyword is tried before one with a shorter one. */
  lemma LongerKeywordTriedFirst(t: seq<Rule>, p: int, q: int)
    requires 0 <= p < |t| && 0 <= q < |t|
    requires MaxKeyLen(SortedRules(t)[p].keywords) > MaxKeyLen(SortedRules(t)[q].keywords)
    ensures p < q
  {
    EvalOrderSpec(t);
  }

  /** Among rules whose longest keywords have the same length, the sort keeps
      declaration order. */
  lemma EqualLengthKeepsDeclarationOrder(t: seq<Rule>, p: int, q: int)
    requires 0 <= p < |t| && 0 <= q < |t|
    requires MaxKeyLen(SortedRules(t)[p].keywords) == MaxKeyLen(SortedRules(t)[q].keywords)
    ensures p < q <==> EvalOrder(t)[p] < EvalOrder(t)[q]
  {
    EvalOrderSpec(t);
    if q < p {
      assert TriedBefore(t)(EvalOrder(t)[q], EvalOrder(t)[p]);
    } else if p < q {
      assert TriedBefore(t)(EvalOrder(t)[p], EvalOrder(t)[q]);
    }
  }

  /** Every "nuten rückzug" rule is tried before every "nuten" rule
      (rule_engine.py, lines 138-196 and 570). */
  lemma NutenRueckzugBeforeNuten(kulissen: bool, p: int, q: int)
    requires 0 <= p < TableSize && 0 <= q < TableSize
    requires SortedRules(Table(kulissen))[p].keywords == ["nuten rückzug"]
    requires SortedRules(Table(kulissen))[q].keywords == ["nuten"]
    ensures p < q
  {
    TableLayout(kulissen);
    assert MaxKeyLen(["nuten rückzug"]) == 13;
    assert MaxKeyLen(["nuten"]) == 5;
    LongerKeywordTriedFirst(Table(kulissen), p, q);
  }

  /** The 7.8 drilling rule is tried before every other "bohrung" rule
      (rule_engine.py, lines 389-418 and 570). */
  lemma SpecialDrillTriedFirst(kulissen: bool, p: int, q: int)
    requires 0 <= p < TableSize && 0 <= q < TableSize && p != q
    requires EvalOrder(Table(kulissen))[p] == BohrungStart
    requires SortedRules(Table(kulissen))[q].keywords == ["bohrung"]
    ensures p < q
  {
    var t := Table(kulissen);
    TableLayout(kulissen);
    SpecialDrillDeclaredFirst(kulissen);
    EvalOrderSpec(t);
    var j := EvalOrder(t)[q];
    assert t[j].keywords == ["bohrung"];
    assert j != BohrungStart by {
      if p < q {
        assert TriedBefore(t)(EvalOrder(t)[p], EvalOrder(t)[q]);
      } else {
        assert TriedBefore(t)(EvalOrder(t)[q], EvalOrder(t)[p]);
      }
    }
    EqualLengthKeepsDeclarationOrder(t, p, q);
  }

  /** Both overlapping fit-milling rules accept a diameter of 16, and the "08" rule is
      tried before the "09" rule (rule_engine.py, lines 310-315 and 570). */
  lemma PassungOverlapOrder(kulissen: bool, p: int, q: int)
    requires 0 <= p < TableSize && 0 <= q < TableSize
    requires EvalOrder(Table(kulissen))[p] == BohrungTiefKmIndex + 8
    requires EvalOrder(Table(kulissen))[q] == BohrungTiefKmIndex + 9
    ensures SortedRules(Table(kulissen))[p].act == Static(Target(PassungDir, "08"))
    ensures SortedRules(Table(kulissen))[q].act == Static(Target(PassungDir, "09"))
    ensures SortedRules(Table(kulissen))[p].pred(Dia16(kulissen))
    ensures SortedRules(Table(kulissen))[q].pred(Dia16(kulissen))
    ensures p < q
  {
    var t := Table(kulissen);
    TableLayout(kulissen);
    PassungLayout(kulissen);
    EqualLengthKeepsDeclarationOrder(t, p, q);
  }

  /** Fit milling with diameter 16 and nothing else measured. */
  function Dia16(kulissen: bool): Args {
    Args("passung fräsen", map["Durchmesser" := Some("16.000000")], Nums(Some(16.0), None, None, None, None, None, None))
  }

  lemma PassungLayout(kulissen: bool)
    ensures Table(kulissen)[BohrungTiefKmIndex + 8] == PassungRules()[7]
    ensures Table(kulissen)[BohrungTiefKmIndex + 9] == PassungRules()[8]
  {
    var before := RulesBeforeBohrung(kulissen);
    assert before[BohrungTiefKmIndex + 8] == PassungRules()[7];
    assert before[BohrungTiefKmIndex + 9] == PassungRules()[8];
    TableLayout(kulissen);
  }

  // ---------------------------------------------------------------------------------
  // The file system and the gates of one rule (lines 610-685).

  /** What `os.listdir` gives for a directory: its names in the order the operating
      system lists them, or an `OSError`. */
  datatype Listing = Unreadable | Entries(names: seq<string>)

  /** A snapshot: the directories (`os.path.isdir`) with their listings, and the paths
      of the regular files (`os.path.isfile`). */
  datatype FileSystem = FileSystem(dirs: map<string, Listing>, files: set<string>)

  datatype PathOps = PathOps(
    join: (string, string) -> string,  // os.path.join
    norm: string -> string,            // os.path.normpath
    basename: string -> string)        // os.path.basename

  /** How one rule ends: the gate it fails, or the file it finds. */
  datatype Outcome =
    | KeywordMiss | PredicateFalse | ActionDeclined | DirMissing | DirUnreadable | NoFile
    | Found(path: string)

  /** The (subdirectory, prefix) pair an action gives, or `None` when a dynamic action declines. */
  function ActionTarget(act: Action, a: Args): Option<Target> {
    match act
    case Static(t) => Some(t)
    case Dynamic(choose) => choose(a)
  }

  function SearchDir(root: string, t: Target, ops: PathOps): string {
    ops.norm(ops.join(root, t.subdir))
  }

  /** A directory entry the prefix search accepts. */
  predicate IsPrcCandidate(fs: FileSystem, ops: PathOps, dir: string, prefix: string, name: string) {
    StartsWith(name, prefix + "_") && EndsWith(Lower(name), ".prc") && ops.join(dir, name) in fs.files
  }

  /** The paths of the accepted entries of `names`, in order. */
  function MatchingPaths(fs: FileSystem, ops: PathOps, dir: string, prefix: string, names: seq<string>): seq<string>
    decreases |names|
  {
    if names == [] then []
    else
      var last := names[|names| - 1];
      MatchingPaths(fs, ops, dir, prefix, names[..|names| - 1])
      + (if IsPrcCandidate(fs, ops, dir, prefix, last) then [ops.join(dir, last)] else [])
  }

  /** The file a rule selects in a listed directory: the first accepted entry of the
      sorted listing. */
  function PrcFileIn(fs: FileSystem, ops: PathOps, dir: string, prefix: string, listing: seq<string>): Option<string> {
    var m := MatchingPaths(fs, ops, dir, prefix, SortBy(listing, StrLt));
    if m == [] then None else Some(m[0])
  }

  lemma {:induction false} MatchingPathsFirst(fs: FileSystem, ops: PathOps, dir: string, prefix: string, names: seq<string>)
    ensures MatchingPaths(fs, ops, dir, prefix, names) == [] <==>
      forall k | 0 <= k < |names| :: !IsPrcCandidate(fs, ops, dir, prefix, names[k])
    ensures MatchingPaths(fs, ops, dir, prefix, names) != [] ==>
      exists k | 0 <= k < |names| ::
        && IsPrcCandidate(fs, ops, dir, prefix, names[k])
        && MatchingPaths(fs, ops, dir, prefix, names)[0] == ops.join(dir, names[k])
        && forall j | 0 <= j < k :: !IsPrcCandidate(fs, ops, dir, prefix, names[j])
    decreases |names|
  {
    if names != [] {
      var n := |names| - 1;
      var init := names[..n];
      MatchingPathsFirst(fs, ops, dir, prefix, init);
      assert forall k | 0 <= k < n :: names[k] == init[k];
      if MatchingPaths(fs, ops, dir, prefix, init) != [] {
        var k :| 0 <= k < |init|
          && IsPrcCandidate(fs, ops, dir, prefix, init[k])
          && MatchingPaths(fs, ops, dir, prefix, init)[0] == ops.join(dir, init[k])
          && forall j | 0 <= j < k :: !IsPrcCandidate(fs, ops, dir, prefix, init[j]);
        assert names[k] == init[k];
      }
    }
  }

  lemma StrLtIsStrictTotal()
    ensures IsStrictTotalOrder(StrLt)
  {
    forall x: string ensures !StrLt(x, x) { StrLtIrreflexive(x); }
    forall x: string, y: string, z: string | StrLt(x, y) && StrLt(y, z) ensures StrLt(x, z) {
      StrLtTransitive(x, y, z);
    }
    forall x: string, y: string ensures x == y || StrLt(x, y) || StrLt(y, x) { StrLtTotal(x, y); }
  }

  /** The prefix search finds nothing exactly when no entry is accepted; otherwise it
      finds the accepted entry that comes first in code-point order, whatever order the
      operating system lists the directory in (lines 658-674). */
  lemma PrcFileInSpec(fs: FileSystem, ops: PathOps, dir: string, prefix: string, listing: seq<string>)
    ensures PrcFileIn(fs, ops, dir, prefix, listing).None? <==>
      forall n | n in listing :: !IsPrcCandidate(fs, ops, dir, prefix, n)
    ensures PrcFileIn(fs, ops, dir, prefix, listing).Some? ==>
      exists n | n in listing ::
        && IsPrcCandidate(fs, ops, dir, prefix, n)
        && PrcFileIn(fs, ops, dir, prefix, listing) == Some(ops.join(dir, n))
        && forall m | m in listing && IsPrcCandidate(fs, ops, dir, prefix, m) :: m == n || StrLt(n, m)
  {
    var sorted := SortBy(listing, StrLt);
    SortNames(listing);
    MatchingPathsFirst(fs, ops, dir, prefix, sorted);
    if MatchingPaths(fs, ops, dir, prefix, sorted) != [] {
      var k :| 0 <= k < |sorted|
        && IsPrcCandidate(fs, ops, dir, prefix, sorted[k])
        && MatchingPaths(fs, ops, dir, prefix, sorted)[0] == ops.join(dir, sorted[k])
        && forall j | 0 <= j < k :: !IsPrcCandidate(fs, ops, dir, prefix, sorted[j]);
      LeastCandidate(fs, ops, dir, prefix, sorted, k);
    }
  }

  /** `sorted(names)` holds the same names, in code-point order. */
  lemma SortNames(listing: seq<string>)
    ensures SortedBy(SortBy(listing, StrLt), StrLt)
    ensures forall n :: n in listing <==> n in SortBy(listing, StrLt)
  {
    var sorted := SortBy(listing, StrLt);
    StrLtIsStrictTotal();
    SortByCorrect(listing, StrLt);
    forall n ensures n in listing <==> n in sorted {
      assert n in listing <==> n in multiset(listing);
      assert n in sorted <==> n in multiset(sorted);
    }
  }

  /** In a sorted listing, the first accepted entry precedes every other accepted one. */
  lemma LeastCandidate(fs: FileSystem, ops: PathOps, dir: string, prefix: string, sorted: seq<string>, k: int)
    requires SortedBy(sorted, StrLt)
    requires 0 <= k < |sorted| && IsPrcCandidate(fs, ops, dir, prefix, sorted[k])
    requires forall j | 0 <= j < k :: !IsPrcCandidate(fs, ops, dir, prefix, sorted[j])
    ensures forall m | m in sorted && IsPrcCandidate(fs, ops, dir, prefix, m) :: m == sorted[k] || StrLt(sorted[k], m)
  {
    forall m | m in sorted && IsPrcCandidate(fs, ops, dir, prefix, m) ensures m == sorted[k] || StrLt(sorted[k], m) {
      var j :| 0 <= j < |sorted| && sorted[j] == m;
      if j > k {
        assert !StrLt(sorted[j], sorted[k]);
        StrLtTotal(sorted[k], m);
      }
    }
  }

  /** The prefix search as the loop runs it: sort the listing, collect the accepted
      paths in order, return the first. */
  method FindPrcFile(fs: FileSystem, ops: PathOps, dir: string, prefix: string, listing: seq<string>)
    returns (r: Option<string>)
    ensures r == PrcFileIn(fs, ops, dir, prefix, listing)
  {
    var names := SortBy(listing, StrLt);
    var wanted := prefix + "_";
    var found: seq<string> := [];
    for i := 0 to |names|
      invariant found == MatchingPaths(fs, ops, dir, prefix, names[..i])
    {
      var item := names[i];
      assert names[..i + 1][..i] == names[..i];
      if StartsWith(item, wanted) && EndsWith(Lower(item), ".prc") {
        var fullPath := ops.join(dir, item);
        if fullPath in fs.files {
          found := found + [fullPath];
        }
      }
    }
    assert names[..|names|] == names;
    if found != [] {
      return Some(found[0]);
    }
    return None;
  }

  /** One rule against the feature: the four gates in order. */
  function RuleOutcome(rule: Rule, a: Args, root: string, fs: FileSystem, ops: PathOps): Outcome {
    if !KeywordEligible(a.ft, rule.keywords) then KeywordMiss
    else if !rule.pred(a) then PredicateFalse
    else match ActionTarget(rule.act, a)
      case None => ActionDeclined
      case Some(t) =>
        var dir := SearchDir(root, t, ops);
        if dir !in fs.dirs then DirMissing
        else match fs.dirs[dir]
          case Unreadable => DirUnreadable
          case Entries(names) =>
            match PrcFileIn(fs, ops, dir, t.prefix, names)
            case None => NoFile
            case Some(path) => Found(path)
  }

  /** A rule finds a file only if it passes every gate, and then the file is an existing
      regular file in the rule's directory, accepted by the prefix search, and the least
      such in code-point order (lines 610-674). */
  lemma FoundShape(rule: Rule, a: Args, root: string, fs: FileSystem, ops: PathOps)
    ensures RuleOutcome(rule, a, root, fs, ops).Found? ==>
      && KeywordEligible(a.ft, rule.keywords)
      && rule.pred(a)
      && ActionTarget(rule.act, a).Some?
      && var t := ActionTarget(rule.act, a).value;
         var dir := SearchDir(root, t, ops);
         && dir in fs.dirs && fs.dirs[dir].Entries?
         && RuleOutcome(rule, a, root, fs, ops).path in fs.files
         && exists n | n in fs.dirs[dir].names ::
              && IsPrcCandidate(fs, ops, dir, t.prefix, n)
              && RuleOutcome(rule, a, root, fs, ops).path == ops.join(dir, n)
              && forall m | m in fs.dirs[dir].names && IsPrcCandidate(fs, ops, dir, t.prefix, m) :: m == n || StrLt(n, m)
  {
    if RuleOutcome(rule, a, root, fs, ops).Found? {
      var t := ActionTarget(rule.act, a).value;
      var dir := SearchDir(root, t, ops);
      PrcFileInSpec(fs, ops, dir, t.prefix, fs.dirs[dir].names);
    }
  }

  /** A rule ends without a file when its predicate fails, its action declines, its
      directory is missing or cannot be listed, or no entry is accepted
      (lines 626-628, 646-661, 675-685). */
  lemma SkipConditions(rule: Rule, a: Args, root: string, fs: FileSystem, ops: PathOps)
    requires KeywordEligible(a.ft, rule.keywords)
    ensures !rule.pred(a) ==> RuleOutcome(rule, a, root, fs, ops) == PredicateFalse
    ensures rule.pred(a) && ActionTarget(rule.act, a).None? ==> RuleOutcome(rule, a, root, fs, ops) == ActionDeclined
    ensures rule.pred(a) && ActionTarget(rule.act, a).Some? ==>
      var dir := SearchDir(root, ActionTarget(rule.act, a).value, ops);
      && (dir !in fs.dirs ==> RuleOutcome(rule, a, root, fs, ops) == DirMissing)
      && (dir in fs.dirs && fs.dirs[dir].Unreadable? ==> RuleOutcome(rule, a, root, fs, ops) == DirUnreadable)
      && (dir in fs.dirs && fs.dirs[dir].Entries?
          && (forall n | n in fs.dirs[dir].names :: !IsPrcCandidate(fs, ops, dir, ActionTarget(rule.act, a).value.prefix, n))
          ==> RuleOutcome(rule, a, root, fs, ops) == NoFile)
  {
    if rule.pred(a) && ActionTarget(rule.act, a).Some? {
      var t := ActionTarget(rule.act, a).value;
      var dir := SearchDir(root, t, ops);
      if dir in fs.dirs && fs.dirs[dir].Entries? {
        PrcFileInSpec(fs, ops, dir, t.prefix, fs.dirs[dir].names);
      }
    }
  }

  function FoundPath(o: Outcome): Option<string> {
    if o.Found? then Some(o.path) else None
  }

  /** The rules tried in order; the first one that finds a file decides. */
  function TryRules(rules: seq<Rule>, a: Args, root: string, fs: FileSystem, ops: PathOps): Option<string> {
    FirstSome(rules, (r: Rule) => FoundPath(RuleOutcome(r, a, root, fs, ops)))
  }

  /** First match wins: a result comes from a rule that finds a file with no rule before
      it finding one, and there is no result exactly when no rule finds a file. */
  lemma FirstMatchWins(rules: seq<Rule>, a: Args, root: string, fs: FileSystem, ops: PathOps)
    ensures TryRules(rules, a, root, fs, ops).Some? ==>
      exists k | 0 <= k < |rules| ::
        && RuleOutcome(rules[k], a, root, fs, ops) == Found(TryRules(rules, a, root, fs, ops).value)
        && forall j | 0 <= j < k :: !RuleOutcome(rules[j], a, root, fs, ops).Found?
    ensures TryRules(rules, a, root, fs, ops).None? <==>
      forall k | 0 <= k < |rules| :: !RuleOutcome(rules[k], a, root, fs, ops).Found?
  {
    var f := (r: Rule) => FoundPath(RuleOutcome(r, a, root, fs, ops));
    FirstSomeSpec(rules, f);
    if TryRules(rules, a, root, fs, ops).Some? {
      var k :| 0 <= k < |rules| && f(rules[k]) == FirstSome(rules, f) && forall j | 0 <= j < k :: f(rules[j]).None?;
      assert RuleOutcome(rules[k], a, root, fs, ops) == Found(TryRules(rules, a, root, fs, ops).value);
    }
  }

  /** Trying the rules from position `i` on: rule `i` decides if it finds a file,
      otherwise the rules after it do. */
  lemma TryRulesStep(rules: seq<Rule>, i: int, a: Args, root: string, fs: FileSystem, ops: PathOps)
    requires 0 <= i < |rules|
    ensures TryRules(rules[i..], a, root, fs, ops) ==
      if RuleOutcome(rules[i], a, root, fs, ops).Found? then Some(RuleOutcome(rules[i], a, root, fs, ops).path)
      else TryRules(rules[i + 1..], a, root, fs, ops)
  {
    assert rules[i..][1..] == rules[i + 1..];
  }

  // ---------------------------------------------------------------------------------
  // The whole resolver (lines 30-43 and 570-689).

  /** `not feature_type_lower or not ocr_all_results or not material_root_path` */
  predicate MissingInput(ft: Option<string>, fields: Fields, root: Option<string>) {
    ft == None || ft == Some("") || |fields| == 0 || root == None || root == Some("")
  }

  /** The lowercased base name of the normalized root is "kulissen-2025" (lines 39-40). */
  predicate IsKulissenRoot(root: string, ops: PathOps) {
    Lower(ops.basename(ops.norm(root))) == "kulissen-2025"
  }

  function FeatureArgs(ft: string, fields: Fields): Args {
    Args(ft, fields, ExtractNums(fields))
  }

  /** What `find_prc_path_by_rules` returns. */
  function Resolve(ft: Option<string>, fields: Fields, root: Option<string>, fs: FileSystem, ops: PathOps): (r: Option<string>)
    ensures MissingInput(ft, fields, root) ==> r == None
  {
    if MissingInput(ft, fields, root) then None
    else
      var kulissen := IsKulissenRoot(root.value, ops);
      TryRules(SortedRules(Table(kulissen)), FeatureArgs(ft.value, fields), root.value, fs, ops)
  }

  /** A path is returned only when the input is complete, and then it comes from a rule
      of the table that passes every gate; a rule guarded by the Kulissen flag can be
      that rule only under a "kulissen-2025" root (lines 32-40, 274-284, 466-557, 573-674). */
  lemma ResolveFound(ft: Option<string>, fields: Fields, root: Option<string>, fs: FileSystem, ops: PathOps)
    ensures Resolve(ft, fields, root, fs, ops).Some? ==>
      && !MissingInput(ft, fields, root)
      && Resolve(ft, fields, root, fs, ops).value in fs.files
      && var kulissen := IsKulissenRoot(root.value, ops);
         exists i | 0 <= i < TableSize ::
           && RuleOutcome(Table(kulissen)[i], FeatureArgs(ft.value, fields), root.value, fs, ops)
              == Found(Resolve(ft, fields, root, fs, ops).value)
           && (IsKulissenGuarded(i) ==> kulissen)
  {
    if Resolve(ft, fields, root, fs, ops).Some? {
      var kulissen := IsKulissenRoot(root.value, ops);
      var t := Table(kulissen);
      var a := FeatureArgs(ft.value, fields);
      var path := Resolve(ft, fields, root, fs, ops).value;
      assert TryRules(SortedRules(t), a, root.value, fs, ops) == Some(path);
      SortedRulesFound(t, a, root.value, fs, ops);
      var i :| 0 <= i < |t| && RuleOutcome(t[i], a, root.value, fs, ops) == Found(path);
      TableLayout(kulissen);
      FoundShape(t[i], a, root.value, fs, ops);
      if IsKulissenGuarded(i) && !kulissen {
        KulissenRulesNeedKulissenRoot(i, a);
      }
    }
  }

  /** A file found over the sorted rules is found by some rule of the table. */
  lemma SortedRulesFound(t: seq<Rule>, a: Args, root: string, fs: FileSystem, ops: PathOps)
    ensures TryRules(SortedRules(t), a, root, fs, ops).Some? ==>
      exists i | 0 <= i < |t| :: RuleOutcome(t[i], a, root, fs, ops) == Found(TryRules(SortedRules(t), a, root, fs, ops).value)
  {
    var sorted := SortedRules(t);
    if TryRules(sorted, a, root, fs, ops).Some? {
      EvalOrderSpec(t);
      FirstMatchWins(sorted, a, root, fs, ops);
      var k :| 0 <= k < |sorted| && RuleOutcome(sorted[k], a, root, fs, ops) == Found(TryRules(sorted, a, root, fs, ops).value);
      assert sorted[k] == t[EvalOrder(t)[k]];
    }
  }

  /** The resolver as the source runs it: check the inputs, decide the Kulissen flag,
      read the numbers, sort the rules and try them in that order. */
  method FindPrcPathByRules(ft: Option<string>, fields: Fields, root: Option<string>, fs: FileSystem, ops: PathOps)
    returns (r: Option<string>)
    ensures r == Resolve(ft, fields, root, fs, ops)
  {
    if MissingInput(ft, fields, root) {
      return None;
    }
    var kulissen := IsKulissenRoot(root.value, ops);
    var args := FeatureArgs(ft.value, fields);
    var sorted := SortedRules(Table(kulissen));
    r := TryRulesInOrder(sorted, args, root.value, fs, ops);
  }

  /** The loop over the sorted rules (lines 573-687): the first file found is returned. */
  method TryRulesInOrder(rules: seq<Rule>, args: Args, root: string, fs: FileSystem, ops: PathOps)
    returns (r: Option<string>)
    ensures r == TryRules(rules, args, root, fs, ops)
  {
    for i := 0 to |rules|
      invariant TryRules(rules, args, root, fs, ops) == TryRules(rules[i..], args, root, fs, ops)
    {
      TryRulesStep(rules, i, args, root, fs, ops);
      var file := TryRule(rules[i], args, root, fs, ops);
      if file.Some? {
        return file;
      }
    }
    assert rules[|rules|..] == [];
    return None;
  }

  /** One rule (lines 577-685): it is skipped at the first gate it fails, and otherwise
      yields the file its prefix search finds. */
  method TryRule(rule: Rule, args: Args, root: string, fs: FileSystem, ops: PathOps)
    returns (file: Option<string>)
    ensures file == FoundPath(RuleOutcome(rule, args, root, fs, ops))
  {
    var matched := KeywordMatch(args.ft, rule.keywords);
    if !matched {
      return None;
    }
    if !rule.pred(args) {
      return None;
    }
    var target: Target;
    if rule.act.Dynamic? {
      var chosen := rule.act.choose(args);
      if chosen.None? {
        return None;
      }
      target := chosen.value;
    } else {
      target := rule.act.target;
    }
    var searchDir := ops.norm(ops.join(root, target.subdir));
    if searchDir !in fs.dirs {
      return None;
    }
    if fs.dirs[searchDir].Unreadable? {
      return None;
    }
    file := FindPrcFile(fs, ops, searchDir, target.prefix, fs.dirs[searchDir].names);
  }

  // ---------------------------------------------------------------------------------
  // Worked examples on slices of the table, with "/"-joined paths.

  function SlashOps(): PathOps {
    PathOps((d: string, n: string) => d + "/" + n, (p: string) => p, (p: string) => p)
  }

  /** When rule `k` is the first to find a file, its file is the result. */
  lemma TryRulesFirstFound(rules: seq<Rule>, k: int, a: Args, root: string, fs: FileSystem, ops: PathOps)
    requires 0 <= k < |rules| && RuleOutcome(rules[k], a, root, fs, ops).Found?
    requires forall j | 0 <= j < k :: !RuleOutcome(rules[j], a, root, fs, ops).Found?
    ensures TryRules(rules, a, root, fs, ops) == Some(RuleOutcome(rules[k], a, root, fs, ops).path)
  {
    FirstMatchWins(rules, a, root, fs, ops);
  }

  lemma PassungEligible()
    ensures KeywordEligible("passung fräsen", ["passung fräsen"])
  {
    var kws := ["passung fräsen"];
    assert OccursAt("passung fräsen", kws[0], 0);
  }

  lemma AcceptedName(fs: FileSystem, ops: PathOps, dir: string, prefix: string, name: string)
    requires |prefix| == 2 && |name| == 8
    requires name[..3] == prefix + "_" && name[4..] == ".prc"
    requires ops.join(dir, name) in fs.files
    ensures IsPrcCandidate(fs, ops, dir, prefix, name)
  {
    assert Lower(name)[4..] == ".prc";
  }

  /** The fit directory under the root "/m". */
  function FitDir(): string { "/m/" + PassungDir }

  /** A fit directory holding one file for each of the two overlapping rules. */
  function BothFits(): FileSystem {
    FileSystem(map[FitDir() := Entries(["09_b.prc", "08_a.prc"])], {FitDir() + "/08_a.prc", FitDir() + "/09_b.prc"})
  }

  lemma FitRulesBeforeOverlapFail(j: int)
    requires 0 <= j < 7
    ensures RuleOutcome(PassungRules()[j], Dia16(false), "/m", BothFits(), SlashOps()) == PredicateFalse
  {
    PassungEligible();
  }

  lemma FitRuleEightFinds()
    ensures RuleOutcome(PassungRules()[7], Dia16(false), "/m", BothFits(), SlashOps()) == Found(FitDir() + "/08_a.prc")
  {
    var dir := FitDir();
    var fs := BothFits();
    var ops := SlashOps();
    PassungEligible();
    assert SearchDir("/m", Target(PassungDir, "08"), ops) == dir;
    assert ops.join(dir, "08_a.prc") == dir + "/08_a.prc";
    AcceptedName(fs, ops, dir, "08", "08_a.prc");
    assert !IsPrcCandidate(fs, ops, dir, "08", "09_b.prc") by {
      assert "09_b.prc"[1] != ("08" + "_")[1];
    }
    PrcFileInSpec(fs, ops, dir, "08", ["09_b.prc", "08_a.prc"]);
  }

  /** A fit of diameter 16 with files for both overlapping rules: the "08" file is
      returned, never the "09" one (rule_engine.py, lines 310-315 and 573-674). */
  lemma PassungOverlapExample()
    ensures TryRules(PassungRules(), Dia16(false), "/m", BothFits(), SlashOps()) == Some(FitDir() + "/08_a.prc")
  {
    forall j | 0 <= j < 7
      ensures !RuleOutcome(PassungRules()[j], Dia16(false), "/m", BothFits(), SlashOps()).Found?
    {
      FitRulesBeforeOverlapFail(j);
    }
    FitRuleEightFinds();
    TryRulesFirstFound(PassungRules(), 7, Dia16(false), "/m", BothFits(), SlashOps());
  }

  /** Drilling of diameter 9.5, as the OCR reads it. */
  function Drill95(): Args {
    Args("bohrung", map["Durchmesser" := Some("9,5")], Nums(Some(9.5), None, None, None, None, None, None))
  }

  /** A drilling directory that holds only an "01_" file. */
  function OnlyFirstDrill(): FileSystem {
    FileSystem(map["/m/" + DgbDir := Entries(["01_x.prc"])], {"/m/" + DgbDir + "/01_x.prc"})
  }

  /** Of the drilling rules only the "02" rule accepts 9.5. */
  lemma Drill95Predicates()
    ensures forall k | 0 <= k < |BohrungRules()| :: BohrungRules()[k].pred(Drill95()) <==> k == 4
    ensures BohrungRules()[4].act == Static(Target(DgbDir, "02"))
  {
    var rs := BohrungRules();
    var a := Drill95();
    assert rs[4].pred(a);
    assert !rs[0].pred(a) && !rs[1].pred(a) && !rs[2].pred(a) && !rs[3].pred(a);
    assert !rs[5].pred(a) && !rs[6].pred(a) && !rs[7].pred(a) && !rs[8].pred(a);
  }

  lemma Drill95NoFile()
    ensures RuleOutcome(BohrungRules()[4], Drill95(), "/m", OnlyFirstDrill(), SlashOps()) == NoFile
  {
    var dir := "/m/" + DgbDir;
    var fs := OnlyFirstDrill();
    var ops := SlashOps();
    var kws := ["bohrung"];
    assert OccursAt("bohrung", kws[0], 0);
    assert KeywordEligible("bohrung", kws);
    Drill95Predicates();
    assert SearchDir("/m", Target(DgbDir, "02"), ops) == dir;
    assert !IsPrcCandidate(fs, ops, dir, "02", "01_x.prc") by {
      assert "01_x.prc"[1] != ("02" + "_")[1];
    }
    PrcFileInSpec(fs, ops, dir, "02", ["01_x.prc"]);
  }

  lemma OtherDrillRulesFail(k: int)
    requires 0 <= k < |BohrungRules()| && k != 4
    ensures !RuleOutcome(BohrungRules()[k], Drill95(), "/m", OnlyFirstDrill(), SlashOps()).Found?
  {
    Drill95Predicates();
  }

  /** Drilling 9.5 selects the "02" rule; when the drilling directory holds only an
      "01_" file, that rule finds nothing and no drilling rule gives a result
      (rule_engine.py, lines 389-418 and 663-677). */
  lemma BohrungFallThroughExample()
    ensures RuleOutcome(BohrungRules()[4], Drill95(), "/m", OnlyFirstDrill(), SlashOps()) == NoFile
    ensures TryRules(BohrungRules(), Drill95(), "/m", OnlyFirstDrill(), SlashOps()) == None
  {
    Drill95NoFile();
    forall k | 0 <= k < |BohrungRules()|
      ensures !RuleOutcome(BohrungRules()[k], Drill95(), "/m", OnlyFirstDrill(), SlashOps()).Found?
    {
      if k != 4 {
        OtherDrillRulesFail(k);
      }
    }
    FirstMatchWins(BohrungRules(), Drill95(), "/m", OnlyFirstDrill(), SlashOps());
  }
}
