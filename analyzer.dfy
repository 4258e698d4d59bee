/** The password scorer: a fixed, ordered list of independent checks whose
    point adjustments are summed and clamped once, a label derived from the
    score, and the findings and suggestions the checks emit. */
module PasswordAnalyzer {
  import opened Text
  import opened Sequences

  // ---- Rule data ----

  /** Denylist, compared with the lower-cased password. */
  const COMMON_PASSWORDS: set<string> := {
    "password", "passw0rd", "123456", "12345678", "123456789", "qwerty",
    "letmein", "admin", "welcome", "iloveyou"
  }

  /** Weak words, scanned in this order; the first one found is reported. */
  const WEAK_WORDS: seq<string> := ["password", "admin", "welcome", "letmein"]

  /** The alternatives of the number-sequence pattern. */
  const NUMBER_SEQUENCES: seq<string> := ["1234", "2345", "3456", "4567", "5678", "6789", "7890"]

  /** The alternatives of the keyboard-walk pattern. */
  const KEYBOARD_WALKS: seq<string> := ["qwerty", "asdf", "zxcv"]

  datatype Pattern = RepeatedChar | NumberSequence | KeyboardWalk

  /** The predictable patterns, scanned in this order. */
  const COMMON_PATTERNS: seq<Pattern> := [RepeatedChar, NumberSequence, KeyboardWalk]

  predicate ContainsAny(s: string, alternatives: seq<string>) {
    exists k :: 0 <= k < |alternatives| && Contains(s, alternatives[k])
  }

  /** Whether a search for the pattern succeeds somewhere in `s`. */
  predicate Matches(p: Pattern, s: string) {
    match p
    case RepeatedChar => HasTripleRepeat(s)
    case NumberSequence => ContainsAny(s, NUMBER_SEQUENCES)
    case KeyboardWalk => ContainsAny(s, KEYBOARD_WALKS)
  }

  // ---- Feedback text ----

  const TOO_SHORT_FINDING := "Password is too short."
  const LONGER_SUGGESTION := "Increase length to 12+ characters (16+ is even better)."
  const MIN_LENGTH_SUGGESTION := "Use at least 12 characters (minimum 8)."
  const UPPER_SUGGESTION := "Add at least one uppercase letter (A-Z)."
  const LOWER_SUGGESTION := "Add at least one lowercase letter (a-z)."
  const DIGIT_SUGGESTION := "Add at least one number (0-9)."
  const SPECIAL_SUGGESTION := "Add at least one special character (example: !, @, #)."
  const COMMON_FINDING := "Password appears in a common-password list."
  const COMMON_SUGGESTION := "Avoid common passwords—use a unique passphrase."
  const WEAK_WORD_SUGGESTION := "Avoid using common words like 'password', 'admin', or 'welcome'."
  const PATTERN_FINDING := "Password contains a common predictable pattern."
  const PATTERN_SUGGESTION := "Avoid predictable sequences (e.g., 1234, qwerty) or repeated characters."

  function WeakWordFinding(w: string): string {
    "Password contains a common weak word: '" + w + "'."
  }

  // ---- Strength label ----

  datatype Strength = Weak | Moderate | Strong {
    /** The label as the analyzer spells it. */
    function Name(): string {
      match this
      case Weak => "Weak"
      case Moderate => "Moderate"
      case Strong => "Strong"
    }

    /** Position in the order Weak < Moderate < Strong. */
    function Rank(): nat {
      match this
      case Weak => 0
      case Moderate => 1
      case Strong => 2
    }
  }

  /** Weak up to 3, Moderate from 4 to 7, Strong from 8 on. */
  function StrengthLabel(score: int): (r: Strength)
    ensures r == Weak <==> score <= 3
    ensures r == Moderate <==> 4 <= score <= 7
    ensures r == Strong <==> 8 <= score
  {
    if score <= 3 then Weak
    else if score <= 7 then Moderate
    else Strong
  }

  // ---- The checks, one adjustment each ----

  /** What one check contributes: points (negative for a penalty) and the
      findings and suggestions it appends. */
  datatype Adjustment = Adjustment(points: int, findings: seq<string>, suggestions: seq<string>)

  const NO_CHANGE := Adjustment(0, [], [])

  /** Length tiers: 16+ earns 3, 12+ earns 2, 8+ earns 1 and a suggestion,
      anything shorter earns nothing and is reported as too short. */
  function LengthCheck(n: nat): (a: Adjustment)
    ensures 0 <= a.points <= 3
    ensures a.findings == (if n < 8 then [TOO_SHORT_FINDING] else [])
    ensures a.suggestions == [] <==> 12 <= n
    ensures |a.suggestions| <= 1
    ensures 16 <= n ==> a.points == 3
    ensures 12 <= n < 16 ==> a.points == 2
    ensures 8 <= n < 12 ==> a.points == 1 && a.suggestions == [LONGER_SUGGESTION]
    ensures n < 8 ==> a.points == 0 && a.suggestions == [MIN_LENGTH_SUGGESTION]
  {
    if n >= 16 then Adjustment(3, [], [])
    else if n >= 12 then Adjustment(2, [], [])
    else if n >= 8 then Adjustment(1, [], [LONGER_SUGGESTION])
    else Adjustment(0, [TOO_SHORT_FINDING], [MIN_LENGTH_SUGGESTION])
  }

  /** A character class earns a point when present and otherwise suggests itself. */
  function ClassCheck(present: bool, suggestion: string): (a: Adjustment)
    ensures a.findings == []
    ensures a.points + |a.suggestions| == 1
    ensures a.points == 1 <==> present
    ensures !present ==> a.suggestions == [suggestion]
  {
    if present then Adjustment(1, [], []) else Adjustment(0, [], [suggestion])
  }

  /** Exact match of the lower-cased password against the denylist. */
  function CommonPasswordCheck(lower: string): (a: Adjustment)
    ensures a.findings != [] <==> lower in COMMON_PASSWORDS
    ensures a.points == -2 * |a.findings| && |a.findings| == |a.suggestions| <= 1
  {
    if lower in COMMON_PASSWORDS then Adjustment(-2, [COMMON_FINDING], [COMMON_SUGGESTION])
    else NO_CHANGE
  }

  /** The index of the first word of `words` that occurs in `s`, or `|words|`. */
  function FirstContained(words: seq<string>, s: string): (k: nat)
    ensures k <= |words|
    ensures k < |words| ==> Contains(s, words[k])
    ensures forall j :: 0 <= j < k ==> !Contains(s, words[j])
  {
    if words == [] then 0
    else if Contains(s, words[0]) then 0
    else 1 + FirstContained(words[1..], s)
  }

  /** The index of the first pattern of `patterns` that matches `s`, or `|patterns|`. */
  function FirstMatching(patterns: seq<Pattern>, s: string): (k: nat)
    ensures k <= |patterns|
    ensures k < |patterns| ==> Matches(patterns[k], s)
    ensures forall j :: 0 <= j < k ==> !Matches(patterns[j], s)
  {
    if patterns == [] then 0
    else if Matches(patterns[0], s) then 0
    else 1 + FirstMatching(patterns[1..], s)
  }

  /** The first weak word in the lower-cased password, if any, costs one point. */
  function WeakWordCheck(lower: string): (a: Adjustment)
    ensures a.findings != [] <==> ContainsAny(lower, WEAK_WORDS)
    ensures a.points == -|a.findings| && |a.findings| == |a.suggestions| <= 1
  {
    var k := FirstContained(WEAK_WORDS, lower);
    if k < |WEAK_WORDS| then Adjustment(-1, [WeakWordFinding(WEAK_WORDS[k])], [WEAK_WORD_SUGGESTION])
    else NO_CHANGE
  }

  /** The first predictable pattern in the lower-cased password, if any, costs one point. */
  function PatternCheck(lower: string): (a: Adjustment)
    ensures a.findings != [] <==> exists j :: 0 <= j < |COMMON_PATTERNS| && Matches(COMMON_PATTERNS[j], lower)
    ensures a.points == -|a.findings| && |a.findings| == |a.suggestions| <= 1
  {
    if FirstMatching(COMMON_PATTERNS, lower) < |COMMON_PATTERNS| then
      Adjustment(-1, [PATTERN_FINDING], [PATTERN_SUGGESTION])
    else NO_CHANGE
  }

  // ---- The whole analysis, as a specification ----

  datatype Report = Report(score: int, strength: Strength, findings: seq<string>, suggestions: seq<string>)

  /** Two adjustments applied one after the other. */
  function Combine(a: Adjustment, b: Adjustment): Adjustment {
    Adjustment(a.points + b.points, a.findings + b.findings, a.suggestions + b.suggestions)
  }

  /** The adjustments of all checks, combined in the order the analyzer runs
      them, before clamping and de-duplication. */
  function Total(password: string): (r: Adjustment)
    ensures -4 <= r.points <= 7
    ensures |r.findings| <= 4
  {
    var lower := Lower(password);
    var afterLength := LengthCheck(|password|);
    var afterUpper := Combine(afterLength, ClassCheck(HasUpper(password), UPPER_SUGGESTION));
    var afterLower := Combine(afterUpper, ClassCheck(HasLower(password), LOWER_SUGGESTION));
    var afterDigit := Combine(afterLower, ClassCheck(HasDigit(password), DIGIT_SUGGESTION));
    var afterSpecial := Combine(afterDigit, ClassCheck(HasSpecial(password), SPECIAL_SUGGESTION));
    var afterCommon := Combine(afterSpecial, CommonPasswordCheck(lower));
    var afterWeakWord := Combine(afterCommon, WeakWordCheck(lower));
    Combine(afterWeakWord, PatternCheck(lower))
  }

  /** Raised to 0 if negative, lowered to 10 if above 10. */
  function Clamp(x: int): (r: int)
    ensures 0 <= r <= 10
    ensures 0 <= x <= 10 ==> r == x
    ensures x < 0 ==> r == 0
    ensures 10 < x ==> r == 10
  {
    if x < 0 then 0 else if x > 10 then 10 else x
  }

  /** The report the analyzer returns for `password`. */
  function Analyze(password: string): (r: Report)
    ensures 0 <= r.score <= 10
    ensures r.strength == StrengthLabel(r.score)
    ensures Distinct(r.suggestions)
  {
    var total := Total(password);
    var score := Clamp(total.points);
    Report(score, StrengthLabel(score), total.findings, Dedup(total.suggestions))
  }

  // ---- The analyzer ----

  /** The length tiers. */
  method ScoreLength(n: nat, tally: Adjustment) returns (next: Adjustment)
    ensures next == Combine(tally, LengthCheck(n))
  {
    var score, findings, suggestions := tally.points, tally.findings, tally.suggestions;
    if n >= 16 {
      score := score + 3;
    } else if n >= 12 {
      score := score + 2;
    } else if n >= 8 {
      score := score + 1;
      suggestions := suggestions + [LONGER_SUGGESTION];
    } else {
      findings := findings + [TOO_SHORT_FINDING];
      suggestions := suggestions + [MIN_LENGTH_SUGGESTION];
    }
    next := Adjustment(score, findings, suggestions);
  }

  /** One character-class check: a point when the class is present, its
      suggestion when it is not. */
  method ScoreClass(present: bool, suggestion: string, tally: Adjustment) returns (next: Adjustment)
    ensures next == Combine(tally, ClassCheck(present, suggestion))
  {
    var score, suggestions := tally.points, tally.suggestions;
    if present {
      score := score + 1;
    } else {
      suggestions := suggestions + [suggestion];
    }
    next := Adjustment(score, tally.findings, suggestions);
  }

  /** The denylist check: an exact match of the lower-cased password costs
      two points and is reported. */
  method ScoreCommonPassword(lower: string, tally: Adjustment) returns (next: Adjustment)
    ensures next == Combine(tally, CommonPasswordCheck(lower))
  {
    var score, findings, suggestions := tally.points, tally.findings, tally.suggestions;
    if lower in COMMON_PASSWORDS {
      findings := findings + [COMMON_FINDING];
      suggestions := suggestions + [COMMON_SUGGESTION];
      score := score - 2;
    }
    next := Adjustment(score, findings, suggestions);
  }

  /** The weak-word scan (the source's first `for` loop): the first word found
      in the lower-cased password costs a point and is reported; the scan
      stops there. */
  method ScanWeakWords(lower: string, tally: Adjustment) returns (next: Adjustment)
    ensures next == Combine(tally, WeakWordCheck(lower))
  {
    var score, findings, suggestions := tally.points, tally.findings, tally.suggestions;
    ghost var hit := false;
    for i := 0 to |WEAK_WORDS|
      invariant forall j :: 0 <= j < i ==> !Contains(lower, WEAK_WORDS[j])
      invariant !hit && Adjustment(score, findings, suggestions) == tally
    {
      if Contains(lower, WEAK_WORDS[i]) {
        findings := findings + [WeakWordFinding(WEAK_WORDS[i])];
        suggestions := suggestions + [WEAK_WORD_SUGGESTION];
        score := score - 1;
        hit := true;
        assert FirstContained(WEAK_WORDS, lower) == i;
        break;
      }
    }
    if !hit {
      assert FirstContained(WEAK_WORDS, lower) == |WEAK_WORDS|;
    }
    next := Adjustment(score, findings, suggestions);
  }

  /** The pattern scan (the source's second `for` loop): the first predictable
      pattern found in the lower-cased password costs a point and is reported;
      the scan stops there. */
  method ScanPatterns(lower: string, tally: Adjustment) returns (next: Adjustment)
    ensures next == Combine(tally, PatternCheck(lower))
  {
    var score, findings, suggestions := tally.points, tally.findings, tally.suggestions;
    ghost var hit := false;
    for i := 0 to |COMMON_PATTERNS|
      invariant forall j :: 0 <= j < i ==> !Matches(COMMON_PATTERNS[j], lower)
      invariant !hit && Adjustment(score, findings, suggestions) == tally
    {
      if Matches(COMMON_PATTERNS[i], lower) {
        findings := findings + [PATTERN_FINDING];
        suggestions := suggestions + [PATTERN_SUGGESTION];
        score := score - 1;
        hit := true;
        assert FirstMatching(COMMON_PATTERNS, lower) == i;
        break;
      }
    }
    if !hit {
      assert FirstMatching(COMMON_PATTERNS, lower) == |COMMON_PATTERNS|;
    }
    next := Adjustment(score, findings, suggestions);
  }

  /** Runs the checks in order on a running tally (the source's `score`,
      `findings` and `suggestions`), clamps once and removes repeated
      suggestions. */
  method AnalyzePassword(password: string) returns (r: Report)
    ensures r == Analyze(password)
    ensures 0 <= r.score <= 10
    ensures r.strength == StrengthLabel(r.score)
    ensures Distinct(r.suggestions)
  {
    var tally := NO_CHANGE;
    tally := ScoreLength(|password|, tally);
    assert tally == LengthCheck(|password|);
    tally := ScoreClass(HasUpper(password), UPPER_SUGGESTION, tally);
    tally := ScoreClass(HasLower(password), LOWER_SUGGESTION, tally);
    tally := ScoreClass(HasDigit(password), DIGIT_SUGGESTION, tally);
    tally := ScoreClass(HasSpecial(password), SPECIAL_SUGGESTION, tally);
    var lower := Lower(password);
    tally := ScoreCommonPassword(lower, tally);
    tally := ScanWeakWords(lower, tally);
    tally := ScanPatterns(lower, tally);
    assert tally == Total(password);

    var score := tally.points;
    if score < 0 {
      score := 0;
    }
    if score > 10 {
      score := 10;
    }
    var strength := StrengthLabel(score);
    var suggestions := Dedup(tally.suggestions);
    r := Report(score, strength, tally.findings, suggestions);
  }
}
