# Password strength analyzer, modelled in Dafny

This project models `analyze_password` and `strength_label` from
`password_analyzer.py`. The analyzer scores a password with a fixed,
ordered list of independent checks:

- length tiers (up to 3 points);
- one point for each character class present (upper case, lower case,
  digit, special character);
- −2 for an exact match of the lower-cased password on a denylist;
- −1 for the first weak word found in the lower-cased password;
- −1 for the first predictable pattern found in it (a character repeated
  three times, one of the seven ascending four-digit runs `1234` … `7890`,
  or one of the keyboard walks `qwerty`, `asdf`, `zxcv`).

The sum is clamped to [0, 10] and labelled Weak (≤3), Moderate (4–7) or
Strong (≥8). The result also carries the findings and suggestions the checks
emitted. Repeated suggestions are removed, keeping the first occurrence.

Files:

- `text.dfy` (module `Text`) stands in for the regular expressions and
  string builtins the analyzer uses:
  - the character classes;
  - ASCII lower-casing;
  - substring search;
  - the triple-repeat pattern `(.)\1\1`.
- `sequences.dfy` (module `Sequences`) holds order-preserving de-duplication,
  the model of `list(dict.fromkeys(...))`, and its properties.
- `analyzer.dfy` (module `PasswordAnalyzer`) holds the rule data, the
  feedback texts and the label. It also holds one pure function per check,
  the specification `Analyze`, and the imperative analyzer `AnalyzePassword`.
  `AnalyzePassword` keeps a running tally of score, findings and suggestions
  and updates it check by check, as the source does. Its two `for … break`
  scans are loops with invariants. It is proved equal to `Analyze`.
- `properties.dfy` (module `AnalyzerProperties`) relates `Analyze` to
  reference definitions that do not scan in order. An `Outcome` records which
  checks fire on a password. The expected points, findings and suggestions of
  an outcome are plain sums and concatenations of optional entries. The
  lemmas prove:
  - the score formula and its bounds;
  - that Strong is never reached;
  - monotonicity;
  - which findings and suggestions appear, and when;
  - that both lists are free of duplicates;
  - that de-duplication removes nothing.
- `scenarios.dfy` (module `AnalyzerScenarios`) gives the full result on four
  concrete passwords.

The code gives `"Tr0ub4dor&3XQ!"` 2 length points (14 characters) plus 4
class points, i.e. 6, which is Moderate (`AnalyzerScenarios.MixedPasswordReport`).
The code never reaches Strong: the sum before clamping is at most 7
(`AnalyzerProperties.NeverStrong`).

## Model

| member | source | states |
|---|---|---|
| PasswordAnalyzer.AnalyzePassword | password_analyzer.py:17-109 | the imperative analyzer returns exactly the specified report; its score is in 0..10, its label is the label of its score, its suggestions have no repeats |
| PasswordAnalyzer.Analyze | password_analyzer.py:17-109 | the specification of the whole analysis: the clamped sum of all adjustments, its label, the findings in check order and the de-duplicated suggestions; its score is in 0..10, its label is the label of its score, and its suggestions have no repeats |
| PasswordAnalyzer.Total | password_analyzer.py:25-89 | the adjustments of all checks, combined in the order the source runs them; the sum before clamping lies in −4..7 and there are at most four findings |
| PasswordAnalyzer.Combine | password_analyzer.py:25-89 | one check applied after another: points added, findings and suggestions appended |
| PasswordAnalyzer.COMMON_PASSWORDS | password_analyzer.py:4-7 | the ten denylisted passwords |
| PasswordAnalyzer.WEAK_WORDS | password_analyzer.py:75 | the four weak words in scan order |
| PasswordAnalyzer.NUMBER_SEQUENCES | password_analyzer.py:12 | the seven alternatives of the number-sequence pattern |
| PasswordAnalyzer.KEYBOARD_WALKS | password_analyzer.py:13 | the three alternatives of the keyboard-walk pattern |
| PasswordAnalyzer.COMMON_PATTERNS | password_analyzer.py:10-14 | the three patterns in scan order |
| PasswordAnalyzer.ContainsAny | password_analyzer.py:12-13 | an alternation of fixed strings matches when one alternative occurs |
| PasswordAnalyzer.Matches | password_analyzer.py:85 | what `re.search` of each pattern decides on the lower-cased password |
| PasswordAnalyzer.ScoreLength | password_analyzer.py:29-39 | the length tiers add their points, finding and suggestion to the running tally, and change nothing else |
| PasswordAnalyzer.ScoreClass | password_analyzer.py:41-65 | one character-class step adds a point or its suggestion to the running tally |
| PasswordAnalyzer.ScoreCommonPassword | password_analyzer.py:67-71 | the denylist step adds the denylist adjustment to the running tally |
| PasswordAnalyzer.ScanWeakWords | password_analyzer.py:73-81 | the weak-word loop with `break` adds exactly the adjustment for the first listed weak word contained in the lower-cased password, or nothing |
| PasswordAnalyzer.ScanPatterns | password_analyzer.py:83-89 | the pattern loop with `break` adds one penalty if any pattern matches, or nothing |
| PasswordAnalyzer.StrengthLabel | password_analyzer.py:112-120 | Weak exactly when score ≤ 3, Moderate exactly when 4 ≤ score ≤ 7, Strong exactly when score ≥ 8 |
| PasswordAnalyzer.LengthCheck | password_analyzer.py:29-39 | 16+ characters earn 3 points, 12–15 earn 2, 8–11 earn 1 with the "longer" suggestion, fewer earn 0 with the minimum-length suggestion; "too short" exactly below 8 characters; no suggestion exactly from 12 characters |
| PasswordAnalyzer.ClassCheck | password_analyzer.py:47-65 | a class gives its point or its suggestion, never both and never neither; the point exactly when the class is present; no findings |
| PasswordAnalyzer.CommonPasswordCheck | password_analyzer.py:67-71 | a finding exactly when the lower-cased password is on the denylist; then −2 points with one finding and one suggestion, otherwise nothing |
| PasswordAnalyzer.FirstContained | password_analyzer.py:75-81 | the index the weak-word loop stops at: the first word contained in the text, all earlier ones absent, or the list length when none is contained |
| PasswordAnalyzer.WeakWordCheck | password_analyzer.py:73-81 | a finding exactly when some weak word is contained; then −1 with one finding and one suggestion, otherwise nothing |
| PasswordAnalyzer.FirstMatching | password_analyzer.py:84-89 | the index the pattern loop stops at: the first pattern that matches, all earlier ones failing, or the list length |
| PasswordAnalyzer.PatternCheck | password_analyzer.py:83-89 | a finding exactly when some pattern matches; then −1 with one finding and one suggestion, otherwise nothing |
| PasswordAnalyzer.Clamp | password_analyzer.py:91-97 | the result is in 0..10, equals the input inside that range, and is 0 below it and 10 above it |
| Text.LowerChar | password_analyzer.py:68 | an upper-case letter becomes its lower-case partner (32 code points on); every other character is unchanged |
| Text.Lower | password_analyzer.py:68 | lower-casing keeps the length and maps each character to its lower-case form: an upper-case letter to its lower-case partner, every other character to itself |
| Text.HasUpper | password_analyzer.py:42 | `[A-Z]` occurs somewhere in the password |
| Text.HasLower | password_analyzer.py:43 | `[a-z]` occurs somewhere in the password |
| Text.HasDigit | password_analyzer.py:44 | an ASCII digit occurs somewhere in the password |
| Text.HasSpecial | password_analyzer.py:45 | a character of the special class occurs somewhere in the password |
| Text.SpecialIsAsciiPunctuation | password_analyzer.py:45 | a character is in the special class exactly when it is ASCII punctuation |
| Text.Contains | password_analyzer.py:77 | Python's `w in s`: `w` occurs at some position of `s` |
| Text.HasTripleRepeat | password_analyzer.py:11 | `(.)\1\1`: three equal consecutive characters other than a newline |
| Text.LowerIdempotent | password_analyzer.py:68 | lower-casing twice is lower-casing once |
| Text.LowerCaseOnlyClasses | password_analyzer.py:42-45 | a non-empty string of lower-case letters has the lower-case class and no other |
| Text.ClassesPersist | password_analyzer.py:42-45 | adding characters never removes a character class |
| Sequences.Dedup | password_analyzer.py:102 | the result has no repeats, contains exactly the elements of the input and is no longer |
| Sequences.DedupFirstOccurrenceOrder | password_analyzer.py:102 | the kept elements appear in the order of their first occurrences in the input |
| Sequences.DedupOfDistinct | password_analyzer.py:102 | a list without repeats is left unchanged |
| Sequences.DedupIdempotent | password_analyzer.py:102 | de-duplicating twice is de-duplicating once |
| AnalyzerProperties.WeakWordCheckFires | password_analyzer.py:73-81 | the weak-word check fires exactly when some weak word occurs in the lower-cased password, and then names the first one in list order |
| AnalyzerProperties.PatternCheckFires | password_analyzer.py:10-14 | the pattern check fires exactly when a triple repeat, a number run or a keyboard walk occurs in the lower-cased password |
| AnalyzerProperties.ScoreFormula | password_analyzer.py:29-89 | the sum before clamping is length points plus one per class present, −2 for the denylist, −1 for a weak word, −1 for a pattern |
| AnalyzerProperties.PenaltyPoints | password_analyzer.py:67-89 | the denylist costs 2 points and the weak word and the pattern 1 each, exactly when they apply |
| AnalyzerProperties.ScoreOfOutcome | password_analyzer.py:29-97 | the reported score is the clamped reference sum of the checks that fire |
| AnalyzerProperties.ExpectedPointsBounds | password_analyzer.py:29-89 | the sum before clamping lies in −4..7 |
| AnalyzerProperties.ScoreIsSumFlooredAtZero | password_analyzer.py:91-97 | the reported score is the sum raised to 0 when negative; the upper cap never applies; the score is at most 7 |
| AnalyzerProperties.NeverStrong | password_analyzer.py:99 | no password is labelled Strong; the label is Weak up to 3 and Moderate above |
| AnalyzerProperties.StrengthLabelMonotone | password_analyzer.py:112-120 | a higher score never gets a lower label |
| AnalyzerProperties.LengthPointsMonotone | password_analyzer.py:29-39 | a longer password never earns fewer length points |
| AnalyzerProperties.ExpectedPointsMonotone | password_analyzer.py:41-89 | with the length tier and penalties fixed, more classes never lower the sum |
| AnalyzerProperties.MoreClassesNeverLower | password_analyzer.py:41-97 | with the length tier and penalties the same, a password with at least another's classes never scores lower |
| AnalyzerProperties.WeakWordFindingInjective | password_analyzer.py:78 | the weak-word finding determines the word it names |
| AnalyzerProperties.WeakWordFindingIsDistinct | password_analyzer.py:38-86 | a weak-word finding is never the too-short, denylist or pattern finding |
| AnalyzerProperties.FindingsWithoutWeakWord | password_analyzer.py:29-89 | with no weak word, the findings are "too short" below 8 characters, then the denylist and pattern findings when they apply |
| AnalyzerProperties.FindingsWithWeakWord | password_analyzer.py:73-81 | with a weak word, the findings are the reference findings, with the finding naming the first listed weak word after the optional too-short and denylist findings and before the pattern finding |
| AnalyzerProperties.WeakWordReported | password_analyzer.py:75-81 | a finding names word w exactly when w is the first listed weak word in the lower-cased password |
| AnalyzerProperties.WeakWordReportedWhenFirst | password_analyzer.py:75-81 | with `WEAK_WORDS[k]` the first weak word present, a finding names `w` exactly when `w` is that word |
| AnalyzerProperties.WeakWordNotReported | password_analyzer.py:75-81 | without a weak word, no weak-word finding is reported |
| AnalyzerProperties.ExpectedFindingsDistinct | password_analyzer.py:29-89 | the reference findings have no repeats and number at most four |
| AnalyzerProperties.FindingsDistinct | password_analyzer.py:25-89 | the reported findings have no repeats and number at most four |
| AnalyzerProperties.TotalSuggestionsSum | password_analyzer.py:29-89 | the suggestions of the whole run are the reference suggestions: length, the missing classes, then the penalties, in check order |
| AnalyzerProperties.ExpectedSuggestionsDistinct | password_analyzer.py:29-89 | no two checks append the same suggestion |
| AnalyzerProperties.ExpectedSuggestionMembership | password_analyzer.py:29-89 | each reference suggestion is present exactly when its check calls for it |
| AnalyzerProperties.SuggestionsExact | password_analyzer.py:101-102 | the reported suggestions are the appended ones unchanged: de-duplication removes nothing |
| AnalyzerProperties.ClassSuggestedIffMissing | password_analyzer.py:47-65 | each class suggestion is reported exactly when the class is missing |
| AnalyzerProperties.PenaltySuggestedIffApplies | password_analyzer.py:29-89 | the denylist, weak-word and pattern suggestions are reported exactly when their penalty applies; the "longer" suggestion exactly for 8–11 characters; the minimum-length one exactly below 8 |
| AnalyzerProperties.AnalyzeIsExpectedReport | password_analyzer.py:17-109 | the whole report is the reference report of which checks fire, naming the first weak word |
| AnalyzerScenarios.EmptyPasswordReport | password_analyzer.py:17-109 | "" scores 0, is Weak, is too short, and gets the minimum-length and all four class suggestions |
| AnalyzerScenarios.PasswordReport | password_analyzer.py:17-109 | "password" scores 0, is Weak, and is reported as denylisted and as containing the weak word "password" |
| AnalyzerScenarios.RepeatedCharacterReport | password_analyzer.py:17-109 | "aaaaaaaa" scores 1, is Weak, and is reported for a predictable pattern |
| AnalyzerScenarios.MixedPasswordReport | password_analyzer.py:17-109 | "Tr0ub4dor&3XQ!" scores 6, is Moderate, and has no findings and no suggestions |

## Left out

- `main` and its console input and output (password_analyzer.py:123-150) are not modelled.
- The regular-expression engine is not modelled; each pattern the analyzer uses is a predicate of its own:
  - the character classes;
  - `(.)\1\1`, where `.` does not match a newline;
  - the two alternations of fixed strings.
- Text.Lower, Text.IsDigit: `str.lower()` and `\d` are modelled on ASCII only. Python applies Unicode case mapping, which can change a string's length, and `\d` also matches non-ASCII digits. `[A-Z]`, `[a-z]` and the special class are ASCII in the source too.
- PasswordAnalyzer.AnalyzePassword computes the lower-cased password once. The source recomputes `password.lower()` on every loop iteration, which gives the same value.
- PasswordAnalyzer.AnalyzePassword keeps score, findings and suggestions in one tally value. Each check is a helper method that returns the updated tally. The source keeps three local variables.
- PasswordAnalyzer.AnalyzePassword returns a `Report` record instead of a dictionary, and a `Strength` value whose `Name()` is the label text.
