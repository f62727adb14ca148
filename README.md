# ProzessORC rule resolver and OCR post-processing in Dafny

ProzessORC reads a CAD feature dialog with OCR and picks the machining program
(`.prc` file) that fits it. This project models the two pieces of logic at its core.

- **`find_prc_path_by_rules` (rule_engine.py).** It takes a lowercased feature type, the
  OCR field mapping and a material root directory, and returns the path of one `.prc`
  file, or nothing.
  - Seven numeric fields are parsed into optional numbers (module `FieldValues`).
  - A fixed table of 93 rules is built (module `Rules`). Each rule has keywords, a
    predicate and an action. The action is a fixed (subdirectory, prefix) pair, or a
    function that picks one and may decline.
  - The table is sorted stably by the length of each rule's longest keyword, longest
    first (module `Resolver`).
  - The rules are walked in that order, and the first rule that passes all four gates
    wins (modules `Keywords` and `Resolver`). The gates are:
    - keyword eligibility;
    - the predicate;
    - the action;
    - a prefix search in the rule's directory.
- **The text post-processing of `ocr_line_parse` (ocr_recognition.py).**
  - `parse_number` cleans a noisy numeric value (module `NumberText`).
  - Pass 1 merges the OCR lines into a field mapping, and each field keeps the first
    value found (module `OcrParse`).
  - A correction pass re-reads a second OCR text, but only for a "Begrenzungsbox Länge"
    misread as `10.000000`.

Python built-ins are modelled in module `Strings`: `strip`, `lower`, `in`, string
ordering and `replace(",", ".")`. `sorted` is modelled in module `Seqs` as a stable
insertion sort, and `str.splitlines` in `OcrParse`.

The loops of the source are methods with loop invariants, proved against specification
functions:

| method | proved equal to |
|---|---|
| `FindPrcPathByRules` | `Resolve` |
| `KeywordMatch` | `KeywordEligible` |
| `FindPrcFile` | `PrcFileIn` |
| `ParsePass1` | `Pass1` |
| `CorrectBoxLength` | `Corrected` |

What the source promises is proved about those functions as lemmas.

The model has these parameters in place of the real environment:

- **File system:** a snapshot. Each directory path maps to either an unreadable listing
  or its entry names in listing order, and there is a set of regular-file paths.
- **Path operations:** `os.path.join`, `normpath` and `basename` are passed in as
  functions.
- **OCR field patterns:** a `Matcher` from (field, line) to the pattern's first group.
- **Number rendering:** the `"{:.6f}"` rendering is a function from real to string.
- **Second OCR text:** an optional string; `None` means the second OCR call raised.

## Model

| member | source | states |
|---|---|---|
| Resolver.FindPrcPathByRules | rule_engine.py:30-689 | The resolver's loop over the sorted rules returns exactly `Resolve`. That is nothing when an input is missing, otherwise the first file found in evaluation order. |
| Resolver.Resolve | rule_engine.py:32-36 | A missing or empty feature type, an empty field mapping, or a missing or empty root gives no result, before any rule is consulted. |
| Resolver.ResolveFound | rule_engine.py:32-674 | A returned path implies the input was complete and the path is an existing regular file. Some rule of the table found it by passing every gate. A rule guarded by the Kulissen flag can be that rule only when the root's base name is "kulissen-2025". |
| Resolver.TryRulesInOrder | rule_engine.py:573-689 | Walking the rules one by one, returning at the first found file, gives the first-match result `TryRules`. |
| Resolver.TryRule | rule_engine.py:577-685 | One iteration of the loop: keyword test, predicate, action, directory check, listing and prefix search. It returns a path exactly when the rule's outcome is a found file. |
| Resolver.FirstMatchWins | rule_engine.py:573-689 | The result is the file of the earliest rule whose outcome is a found file, with no earlier rule finding one. There is no result exactly when no rule finds a file. |
| Resolver.TryRulesFirstFound | rule_engine.py:573-674 | When rule k is the first to find a file, the result is that file, whatever the later rules would do. |
| Resolver.SkipConditions | rule_engine.py:610-685 | For an eligible rule, each of these moves on to the next rule with no result: a false predicate, a declining action, a missing directory, an unreadable directory, or a directory without a matching file. |
| Resolver.FoundShape | rule_engine.py:610-674 | A found file means the rule passed the keyword test, the predicate and the action. The file exists in the rule's directory under `normpath(join(root, subdir))` and has a name accepted by the prefix search. It is the least such name in code-point order. |
| Resolver.PrcFileInSpec | rule_engine.py:644-674 | The prefix search over a listing finds nothing exactly when no entry is a candidate. A candidate starts with prefix + "_", ends in ".prc" once lowercased, and is a regular file. Otherwise it returns the joined path of the least candidate. |
| Resolver.MatchingPathsFirst | rule_engine.py:663-671 | The list of matches over a sorted listing is empty exactly when no entry is a candidate. Otherwise its head is the first candidate in listing order. |
| Resolver.FindPrcFile | rule_engine.py:651-674 | Sorting the listing, collecting candidates and taking the first one computes the prefix search `PrcFileIn`. |
| Resolver.LeastCandidate | rule_engine.py:658-674 | In a listing sorted by code points, the first candidate is the least candidate. |
| Resolver.SortNames | rule_engine.py:658 | `sorted(os.listdir(...))` returns the same names, sorted. |
| Resolver.StrLtIsStrictTotal | rule_engine.py:658 | Python's string order is a strict total order. |
| Resolver.MaxKeyLen | rule_engine.py:570 | The sort key bounds the length of every keyword of the rule and is the length of one of them. |
| Resolver.EvalOrderSpec | rule_engine.py:570 | The evaluation order visits every rule of the table exactly once. A rule with a longer longest keyword comes first, and among equal lengths the earlier-declared rule comes first, as a stable descending sort gives. |
| Resolver.LongerKeywordTriedFirst | rule_engine.py:570 | A rule whose longest keyword is longer is tried earlier. |
| Resolver.EqualLengthKeepsDeclarationOrder | rule_engine.py:570 | Rules whose longest keywords have equal length are tried in declaration order. |
| Resolver.NutenRueckzugBeforeNuten | rule_engine.py:138-196 | Every "nuten rückzug" rule is tried before every "nuten" rule. |
| Resolver.SpecialDrillTriedFirst | rule_engine.py:389-418 | The 7.8 mm special-drill rule is tried before every other "bohrung" rule. |
| Resolver.PassungOverlapOrder | rule_engine.py:310-315 | For diameter 16.0 the "08" and "09" fit-milling rules both hold, and the "08" rule is tried first. |
| Resolver.PassungLayout | rule_engine.py:289-315 | The two overlapping fit-milling rules sit at their declared places in the table. |
| Resolver.FitRulesBeforeOverlapFail | rule_engine.py:289-309 | For diameter 16.0 the first seven fit-milling rules have false predicates. |
| Resolver.FitRuleEightFinds | rule_engine.py:310-312 | For diameter 16.0, with both "08_" and "09_" files present, the "08" rule finds its file. |
| Resolver.PassungOverlapExample | rule_engine.py:310-315 | First match wins: for diameter 16.0 with both files present, fit milling yields the "08" file, not the overlapping "09". |
| Resolver.Drill95Predicates | rule_engine.py:389-418 | Of the "bohrung" rules, only the 9.3-17.5 rule holds for diameter 9.5, and it names prefix "02". |
| Resolver.Drill95NoFile | rule_engine.py:663-677 | With no "02_" program in the drilling directory, that rule ends with no file. |
| Resolver.OtherDrillRulesFail | rule_engine.py:389-418 | For diameter 9.5 no other "bohrung" rule finds a file. |
| Resolver.BohrungFallThroughExample | rule_engine.py:675-689 | When the only applicable rule's directory lacks its prefix, the search falls through every rule and returns nothing. |
| Resolver.AcceptedName | rule_engine.py:663-667 | A name of the form "NN_x.prc" that is a regular file is accepted for prefix "NN". |
| Resolver.PassungEligible | rule_engine.py:598-604 | The fit-milling feature type is eligible for the fit-milling rules. |
| Resolver.TryRulesStep | rule_engine.py:573-685 | From position i, the loop returns rule i's file if it finds one, and otherwise continues with rule i + 1. |
| Resolver.SortedRulesFound | rule_engine.py:570-674 | A result of the sorted table comes from some rule of the table as declared. |
| Rules.TableLayout | rule_engine.py:110-562 | The table has 93 rules. The Kulissen "bohrung tief km" rule is at index 31, the general drilling rules start at 62, and the ten Kulissen rules close the table. |
| Rules.KulissenRulesNeedKulissenRoot | rule_engine.py:466-557 | Without the Kulissen root, no rule guarded by `is_kulissen_2025_active` holds (this includes the guarded rule at lines 274-284). |
| Rules.KulissenGroupNeedsRoot | rule_engine.py:466-557 | Each of the ten Kulissen rules has a false predicate when the flag is off. |
| Rules.NoBohrungBeforeBohrungRules | rule_engine.py:110-384 | No rule declared before the general drilling rules has the keyword list ["bohrung"]. |
| Rules.NoRuleKeyedConcat | rule_engine.py:110-384 | Two rule groups without a given keyword list joined together still lack it. |
| Rules.SpecialDrillDeclaredFirst | rule_engine.py:389-392 | The first "bohrung" rule in the table is the 7.8 mm special drill. It holds for 7.8 and targets "05_DGB" with prefix "08". |
| Keywords.KeywordMatch | rule_engine.py:577-607 | The keyword-matching loops decide `KeywordEligible`. That is the whole-word search and then the substring fallback for exact-search rules, and the substring test alone for other rules. |
| Keywords.FirstContained | rule_engine.py:599-604 | The substring loop finds a keyword exactly when one of the rule's keywords occurs in the feature type. |
| Keywords.LowercaseEligibleIffSubstring | rule_engine.py:577-607 | On lowercase input a rule is eligible exactly when one of its keywords is a substring of the feature type, for exact-search rules too. |
| Keywords.LowerSlice | rule_engine.py:583 | Lowercasing commutes with taking a slice, which is what makes the case-insensitive search a substring test. |
| Keywords.ReibKeywordsSeparate | rule_engine.py:565-607 | "reib ohne o" matches its own rule but not the "reib mit o" rule. |
| Keywords.ExactSearchIgnoresCase | rule_engine.py:580-604 | The whole-word search ignores case, so "REIB MIT O" matches "reib mit o", while a plain substring rule does not match upper-case text. |
| FieldValues.NumFieldSpec | rule_engine.py:45-52 | A numeric field is absent when its key is missing, `None` or empty, and also when its text with commas replaced is not a decimal number. Otherwise it has a value, which `NumFieldDecimal` gives. |
| FieldValues.NumFieldDecimal | rule_engine.py:45-52 | Every decimal text a field can hold has its value: an optional sign, integer digits, then optionally a comma or a point and fraction digits, with at least one digit in all ("-2,5", "+3", ".5", "012"). The value is the integer digits plus the fraction digits after the point, negated for "-". |
| FieldValues.NumFieldCommaInsensitive | rule_engine.py:49 | Texts that agree once commas are replaced by points give the same number. |
| FieldValues.UnparsableExample | rule_engine.py:47-52 | An unparsable diameter such as "n/a" gives no number, not an error. |
| FieldValues.ParseFloatDefinedIff | rule_engine.py:49 | The decimal `float()` accepts a text exactly when it is a decimal numeral: an optional sign, then digits with at most one point and at least one digit. |
| FieldValues.ParseUnsignedDefinedIff | rule_engine.py:49 | The unsigned part is accepted exactly when it is an unsigned decimal numeral. |
| FieldValues.ParseFloatPointed | rule_engine.py:49 | "ip.fp" parses to the integer part plus the fraction part. |
| FieldValues.FractionValueBounds | rule_engine.py:49 | The digits after the point add a fraction in [0, 1). |
| FieldValues.NatTextRoundTrip | rule_engine.py:49 | The decimal text of every natural number parses back to that number. |
| FieldValues.DigitsValueNatText | rule_engine.py:49 | The digit value of the decimal text of n is n. |
| FieldValues.NatText | rule_engine.py:49 | The decimal text of a natural number is a non-empty digit string. |
| NumberText.FindNumberSpec | ocr_recognition.py:146 | The search for `-?\d+(\.\d+)?` finds nothing exactly when there is no digit. Otherwise it returns a number token at the leftmost position where a match can start, and no number token starting there is longer. |
| NumberText.FindNumberNoneIff | ocr_recognition.py:146 | The search finds nothing exactly when the text has no digit. |
| NumberText.FindNumberFound | ocr_recognition.py:146 | A found number is a number token at the leftmost position where a match can start, and the longest number token starting there. |
| NumberText.FindNumberFromSpec | ocr_recognition.py:146 | The search from position i is the match at the first position at or after i where a number starts. |
| NumberText.NumberStartIffDigit | ocr_recognition.py:146 | A match can start somewhere exactly when the text has a digit. |
| NumberText.MatchIsToken | ocr_recognition.py:146 | The text matched at a starting position is a full number token. |
| NumberText.MatchIsLongest | ocr_recognition.py:146 | The match is greedy: every number token that starts where the match starts is at most as long as the match. |
| NumberText.LeftmostMatchOccurs | ocr_recognition.py:146 | The match at a starting position is a number token that occurs there, and no number token starting there is longer. |
| NumberText.TokenIsFloat | ocr_recognition.py:149-153 | `float()` accepts every number token, so the `ValueError` branch is never taken. |
| NumberText.DropTrailingNoiseSpec | ocr_recognition.py:144 | `re.sub(r"[^\d.\s-]*$", "", …)` keeps a prefix, removes only noise characters, and leaves no noise at the end. |
| NumberText.DropLeadingNoiseSpec | ocr_recognition.py:145 | `re.sub(r"^[^\d-]*", "", …)` keeps a suffix, removes only noise characters, and leaves no noise at the start. |
| NumberText.CleanKeepsDigits | ocr_recognition.py:143-145 | Cleaning keeps a digit exactly when the input has one. |
| NumberText.StripKeepsDigits | ocr_recognition.py:143 | `strip()` keeps a digit exactly when the input has one. |
| NumberText.DropTrailingKeepsDigits | ocr_recognition.py:144 | Cutting trailing noise keeps a digit exactly when the input has one. |
| NumberText.DropLeadingKeepsDigits | ocr_recognition.py:145 | Cutting leading noise keeps a digit exactly when the input has one. |
| NumberText.NonStringGivesNone | ocr_recognition.py:141 | A value that is not a string gives `None`. |
| NumberText.CommaInsensitive | ocr_recognition.py:143 | Inputs that differ only in `,` versus `.` give the same result. |
| NumberText.CommaExample | ocr_recognition.py:143 | "9,5" and "9.5" both give "9.5". |
| NumberText.UnformattedIsFirstMatch | ocr_recognition.py:146-151 | Without a format and with a digit, the result is the number token at the leftmost match in the cleaned text, and the longest number token starting there. |
| NumberText.FormattedRendersValue | ocr_recognition.py:146-150 | With a format and a digit, the result is the rendering of the value of the first number token. |
| NumberText.RenderFormatted | ocr_recognition.py:149-150 | A parsable token is rendered from its value. |
| NumberText.NoDigitGivesCleaned | ocr_recognition.py:154 | Without a digit, the result is the cleaned text for a non-blank input and `None` for a blank one. |
| NumberText.DiameterUnitExample | ocr_recognition.py:143-151 | "Ø 12.3 mm" gives "12.3" without a format. |
| NumberText.DiameterUnitCleaned | ocr_recognition.py:143-145 | Cleaning "Ø 12.3 mm" leaves "12.3". |
| NumberText.DiameterUnitTrailing | ocr_recognition.py:143-144 | Cutting trailing noise from "Ø 12.3 mm" leaves "Ø 12.3 ". |
| NumberText.DiameterUnitMiddle | ocr_recognition.py:144 | The strip after cutting trailing noise leaves "Ø 12.3". |
| NumberText.DiameterUnitLeading | ocr_recognition.py:145 | Cutting leading noise from "Ø 12.3" leaves "12.3". |
| NumberText.FindTwelvePointThree | ocr_recognition.py:146 | The number found in "12.3" is "12.3". |
| NumberText.NinePointFiveCleaned | ocr_recognition.py:143-147 | "9.5" is already clean and is its own number. |
| NumberText.StripUnchanged | ocr_recognition.py:143 | A text without white space at either end is unchanged by `strip()`. |
| OcrParse.ParsePass1 | ocr_recognition.py:156-178 | The merge loop over lines and fields computes `Pass1`. Each field holds the first value any line gives it. A field counts as processed exactly when it has a value. |
| OcrParse.TryFields | ocr_recognition.py:161-177 | The inner loop over the field patterns applies one non-blank line to every field that has no value yet, and leaves the others alone. |
| OcrParse.TryField | ocr_recognition.py:162-177 | One field against one line: a field with a value is skipped. Otherwise it takes the line's storable parsed value, if any. |
| OcrParse.FieldStepsSpec | ocr_recognition.py:161-177 | After a line, each field listed that had no value takes the line's value, and every other field is unchanged. |
| OcrParse.FieldStepsAll | ocr_recognition.py:161-177 | Processing all fields of a line is the line step of pass 1. |
| OcrParse.Pass1PrefixStep | ocr_recognition.py:158-177 | One more line changes only fields that had no value, and gives them that line's value. |
| OcrParse.Pass1Prefix | ocr_recognition.py:123-127 | Pass 1 yields exactly the nine fields of the results mapping. |
| OcrParse.LineStepBlank | ocr_recognition.py:160 | A blank line changes nothing. |
| OcrParse.BlankLineGivesNothing | ocr_recognition.py:159-160 | A blank line gives no field a value. |
| OcrParse.FirstValueSpec | ocr_recognition.py:158-177 | A field's value after pass 1 is storable and is the value of the first line that gives one; no earlier line gives one. There is no value exactly when no line gives one. |
| OcrParse.FirstValueStep | ocr_recognition.py:162 | A later line never overwrites a value; a field without one takes the next line's. |
| OcrParse.LineValueOfStripped | ocr_recognition.py:159-177 | The value of a line is computed from its stripped text. |
| OcrParse.NumericParsedValue | ocr_recognition.py:167-168 | A numeric field stores its match as follows. The diameter gets the first number token of the cleaned text. The other numeric fields get that number's value rendered with six decimals. A match without a digit keeps its cleaned text, or nothing when it is blank. |
| OcrParse.TextParsedValue | ocr_recognition.py:169-173 | "Elementnummer" stores the first run of digits of its match, taken whole: a non-empty digit string with no digit before it and none right after it. A match without a digit is stored as it is. Other text fields store the match when it is non-empty. |
| OcrParse.FirstDigitRunSpec | ocr_recognition.py:170-171 | The run `re.search(r"(\d+)", …)` returns occurs in the text with no digit before it and none right after it, so it is the leftmost run of digits, taken whole. |
| OcrParse.SplitLinesJoin | ocr_recognition.py:156 | `splitlines()` cuts the text at its line ends: each line followed by its end gives back the text. Every end is one line-boundary character or "\r\n", the last line may have no end and is then non-empty, and a "\r" followed by "\n" is one end. |
| OcrParse.SingleLine | ocr_recognition.py:156 | A non-empty text without line breaks is one line. |
| OcrParse.CorrectBoxLength | ocr_recognition.py:182-209 | The correction pass computes `Corrected`. It runs only when the box length is "10.000000" and the second OCR call succeeded, and it sets the box length to the first usable value of the second text, if there is one. |
| OcrParse.ScanBoxLength | ocr_recognition.py:194-204 | The loop over the second text's lines stops at the first line offering a usable box length and returns it. |
| OcrParse.BoxLengthCandidate | ocr_recognition.py:195-201 | What one line of the second text offers: its parsed box length, rendered with six decimals, when that is non-empty and not "10.000000". |
| OcrParse.FirstSomePrefix | ocr_recognition.py:202-204 | Breaking at the first usable line gives the same value as scanning every line. |
| OcrParse.FirstCorrectionUsable | ocr_recognition.py:200-201 | A correction found in the second text is non-empty and differs from "10.000000". |
| OcrParse.CorrectionOnlyTouchesBoxLength | ocr_recognition.py:182-205 | The correction pass keeps the same fields and changes no field other than "Begrenzungsbox Länge". It changes nothing unless that field is "10.000000". Any change requires a second text and is a non-empty value other than "10.000000". |
| OcrParse.FailedSecondPassKeepsResults | ocr_recognition.py:207-209 | When the second OCR call raises, the pass-1 results are kept unchanged. |
| OcrParse.OcrLineParse | ocr_recognition.py:156-209 | The post-processing is pass 1 followed by the correction pass. |
| Seqs.SortByCorrect | rule_engine.py:570 | `sorted` returns a sorted permutation of its input. |
| Seqs.SortByPermutes | rule_engine.py:570 | `sorted` keeps every element with its multiplicity. |
| Seqs.InsertSorted | rule_engine.py:570 | Inserting into a sorted sequence keeps it sorted. |
| Seqs.InsertPermutes | rule_engine.py:570 | Inserting adds exactly one element. |
| Seqs.SortByKeepsSorted | rule_engine.py:570 | Sorting a sorted sequence changes nothing. |
| Seqs.SortByDistinct | rule_engine.py:570 | Sorting keeps distinct elements distinct. |
| Seqs.InsertDistinct | rule_engine.py:570 | Inserting a new element keeps a sequence distinct. |
| Seqs.FirstSomeSpec | ocr_recognition.py:194-204 | The first defined value in a sequence is the value of the first element that has one. There is none exactly when no element has one. |
| Seqs.FirstSomeSnoc | ocr_recognition.py:194-204 | Extending a sequence keeps its first defined value, or adds the new element's. |
| Strings.StripSpec | ocr_recognition.py:143 | `strip()` returns the input without its edge white space: a slice of the input with only white space before and after it. Together with `Strip`'s own contract (no white space at either end, empty exactly for blank text) this fixes the result. |
| Strings.StripLeftSpec | ocr_recognition.py:143 | Stripping the left end leaves the suffix after the leading white space. |
| Strings.StripRightSpec | ocr_recognition.py:143 | Stripping the right end leaves the prefix before the trailing white space. |
| Strings.StrLtTotal | rule_engine.py:658 | Any two strings are equal or ordered one way. |
| Strings.StrLtTransitive | rule_engine.py:658 | String order is transitive. |
| Strings.StrLtIrreflexive | rule_engine.py:658 | No string is less than itself. |
| Strings.ReplaceCommaDigits | ocr_recognition.py:143 | Replacing commas keeps digits. |
| Strings.ReplaceCommaBlank | ocr_recognition.py:143 | Replacing commas keeps blank text blank and non-blank text non-blank. |

## Left out

- **Logging:** every `logger` call is left out, and so is the unused `sympy` import.
- **`float()`:** modelled as a decimal-only parser over exact reals. Text with
  surrounding white space, exponents, `inf`/`nan`, underscores or non-ASCII digits is
  treated as unparsable, where Python would accept it. IEEE-754 rounding is not modelled.
  A bound such as `7.01` or `dia == 6.8` is compared exactly.
- **Numeric fields:** field values are text or `None`. The `str(...)` of a non-string
  OCR value is not modelled.
- **Regular expressions:** `\w`, `\s` and `lower()` are limited to ASCII plus the German
  letters and the usual white-space characters.
- **Non-ASCII digits and white space:** `\d` in `parse_number` (ocr_recognition.py:144-146)
  and in `(\d+)` (line 170) also matches non-ASCII decimal digits such as "１２", and
  `str.strip()` and `\s` (lines 143-145, 159) also remove non-ASCII white space such as
  U+00A0 and separators such as U+001F. The model's digits are `0`-`9` and its white
  space is the six ASCII characters space, tab, `\n`, `\r`, U+000B and U+000C, so for
  a value such as "Ø １２" the model returns the cleaned text, which is empty, where
  Python finds "１２". The field patterns of `ocr_line_parse`
  (`Matcher`) and the `"{:.3f}"`/`"{:.6f}"` rendering (`render`) are parameters.
  `$` in `re.sub(r"[^\d.\s-]*$", …)` is taken as the end of the text, not as the
  position before a final newline. The values it applies to are stripped and hold no
  newline.
- **File system and paths:**
  - `os.listdir`, `isdir` and `isfile` read a fixed snapshot.
  - `os.path.join`, `normpath` and `basename` are parameters, so nothing about real
    path syntax is proved.
  - An `OSError` from listing is the snapshot's `Unreadable` entry.
- **Tuple unpacking:** the `TypeError`/`ValueError` branch (rule_engine.py:634-639) is
  unreachable, because every action yields a (subdirectory, prefix) pair or declines.
- **Predicates and dynamic actions that would raise:** a predicate that would raise a
  `TypeError` on an absent number is written as a total test that fails. A dynamic
  action that would raise on an absent number, which its predicate always excludes,
  just picks a branch.
- **Empty keyword lists:** `MaxKeyLen` gives 0 for an empty keyword list, where
  `max()` would raise. No rule of the table has one.
- **Concrete examples:** the passung and bohrung examples are proved on the rule groups
  they come from (`PassungRules()`, `BohrungRules()`). The table-wide ordering lemmas
  connect these groups to their places in the full table.
- **OCR capture:** screen capture, image preprocessing, the Tesseract calls and the
  debug image are not modelled. The OCR texts are inputs.
- **Other programs:** the user interface (Flet-ProzessOCR-1.0.py) and the hotkey
  listener (prozess.py) are not part of this model.
