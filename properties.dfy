/** What the analyzer promises, stated against reference definitions that do
    not scan in order: which checks fire, what the score adds up to, what is
    reported and suggested, and the outcome on a few concrete passwords. */
module AnalyzerProperties {
  import opened Text
  import opened Sequences
  import opened PasswordAnalyzer

  // ---- Reference definitions ----

  predicate IsCommon(p: string) { Lower(p) in COMMON_PASSWORDS }

  /** Some weak word occurs in the lower-cased password. */
  predicate HasWeakWord(p: string) {
    exists k :: 0 <= k < |WEAK_WORDS| && Contains(Lower(p), WEAK_WORDS[k])
  }

  /** `WEAK_WORDS[k]` occurs in the lower-cased password and no earlier word does. */
  predicate IsFirstWeakWord(p: string, k: int) {
    0 <= k < |WEAK_WORDS| && Contains(Lower(p), WEAK_WORDS[k]) &&
    forall j :: 0 <= j < k ==> !Contains(Lower(p), WEAK_WORDS[j])
  }

  /** A repeated character, a number run or a keyboard walk occurs in the
      lower-cased password. */
  predicate HasPredictablePattern(p: string) {
    var lower := Lower(p);
    HasTripleRepeat(lower) || ContainsAny(lower, NUMBER_SEQUENCES) || ContainsAny(lower, KEYBOARD_WALKS)
  }

  /** The points of one yes/no flag. */
  function Points(flag: bool, n: int): int { if flag then n else 0 }

  /** An optional single entry. */
  function When(flag: bool, s: string): seq<string> { if flag then [s] else [] }

  /** Which checks fire on a password: its length, the classes it has and
      the penalties that apply. */
  datatype Outcome = Outcome(
    length: nat, upper: bool, lower: bool, digit: bool, special: bool,
    common: bool, weakWord: bool, pattern: bool)

  function OutcomeOf(p: string): Outcome {
    Outcome(|p|, HasUpper(p), HasLower(p), HasDigit(p), HasSpecial(p),
            IsCommon(p), HasWeakWord(p), HasPredictablePattern(p))
  }

  /** How many of the four character classes are present. */
  function ClassCount(o: Outcome): nat {
    Points(o.upper, 1) + Points(o.lower, 1) + Points(o.digit, 1) + Points(o.special, 1)
  }

  /** Length points plus one point per class present, minus 2 for a
      denylisted password, 1 for a weak word and 1 for a pattern. */
  function ExpectedPoints(o: Outcome): int {
    LengthCheck(o.length).points + ClassCount(o)
    - Points(o.common, 2) - Points(o.weakWord, 1) - Points(o.pattern, 1)
  }

  /** "Too short" below 8 characters, then the denylist, weak-word (naming
      `word`) and pattern findings, each when its check applies. */
  function ExpectedFindings(o: Outcome, word: string): seq<string> {
    When(o.length < 8, TOO_SHORT_FINDING) + When(o.common, COMMON_FINDING)
    + When(o.weakWord, WeakWordFinding(word)) + When(o.pattern, PATTERN_FINDING)
  }

  function LengthSuggestions(n: nat): seq<string> {
    if n >= 12 then [] else if n >= 8 then [LONGER_SUGGESTION] else [MIN_LENGTH_SUGGESTION]
  }

  /** One suggestion for a length under 12 and one per missing class. */
  function ComplexitySuggestions(o: Outcome): seq<string> {
    LengthSuggestions(o.length)
    + When(!o.upper, UPPER_SUGGESTION) + When(!o.lower, LOWER_SUGGESTION)
    + When(!o.digit, DIGIT_SUGGESTION) + When(!o.special, SPECIAL_SUGGESTION)
  }

  /** One suggestion per penalty that applies. */
  function PenaltySuggestions(o: Outcome): seq<string> {
    When(o.common, COMMON_SUGGESTION) + When(o.weakWord, WEAK_WORD_SUGGESTION)
    + When(o.pattern, PATTERN_SUGGESTION)
  }

  /** All suggestions, in the order of the checks. */
  function ExpectedSuggestions(o: Outcome): seq<string> {
    ComplexitySuggestions(o) + PenaltySuggestions(o)
  }

  // ---- The first-match scans against the reference definitions ----

  /** The weak-word check fires exactly when some weak word occurs, and then
      names the first such word in list order. */
  lemma WeakWordCheckFires(p: string)
    ensures HasWeakWord(p) <==> WeakWordCheck(Lower(p)) != NO_CHANGE
    ensures !HasWeakWord(p) ==> WeakWordCheck(Lower(p)) == NO_CHANGE
    ensures forall k :: IsFirstWeakWord(p, k) ==>
      WeakWordCheck(Lower(p)) == Adjustment(-1, [WeakWordFinding(WEAK_WORDS[k])], [WEAK_WORD_SUGGESTION])
  {
    var k := FirstContained(WEAK_WORDS, Lower(p));
    if k < |WEAK_WORDS| {
      assert HasWeakWord(p);
      assert IsFirstWeakWord(p, k);
      forall k' | IsFirstWeakWord(p, k')
        ensures k' == k
      {
      }
    }
  }

  /** The pattern check fires exactly when one of the three patterns matches. */
  lemma PatternCheckFires(p: string)
    ensures HasPredictablePattern(p) ==>
      PatternCheck(Lower(p)) == Adjustment(-1, [PATTERN_FINDING], [PATTERN_SUGGESTION])
    ensures !HasPredictablePattern(p) ==> PatternCheck(Lower(p)) == NO_CHANGE
  {
    var lower := Lower(p);
    assert Matches(COMMON_PATTERNS[0], lower) == HasTripleRepeat(lower);
    assert Matches(COMMON_PATTERNS[1], lower) == ContainsAny(lower, NUMBER_SEQUENCES);
    assert Matches(COMMON_PATTERNS[2], lower) == ContainsAny(lower, KEYBOARD_WALKS);
  }

  // ---- The score ----

  /** The sum before clamping is the reference sum of the outcome. */
  lemma ScoreFormula(p: string)
    ensures Total(p).points == ExpectedPoints(OutcomeOf(p))
  {
    TotalPointsSum(p);
    PenaltyPoints(p);
  }

  /** Each penalty costs its points exactly when it applies. */
  lemma PenaltyPoints(p: string)
    ensures CommonPasswordCheck(Lower(p)).points == -Points(IsCommon(p), 2)
    ensures WeakWordCheck(Lower(p)).points == -Points(HasWeakWord(p), 1)
    ensures PatternCheck(Lower(p)).points == -Points(HasPredictablePattern(p), 1)
  {
    WeakWordCheckFires(p);
    PatternCheckFires(p);
  }

  /** The points of the sum are the points of the parts. */
  lemma TotalPointsSum(p: string)
    ensures Total(p).points ==
      LengthCheck(|p|).points + ClassCount(OutcomeOf(p)) + CommonPasswordCheck(Lower(p)).points
      + WeakWordCheck(Lower(p)).points + PatternCheck(Lower(p)).points
  {
  }

  /** The reported score is the clamped sum of all adjustments. */
  lemma ScoreIsClampedTotal(p: string)
    ensures Analyze(p).score == Clamp(Total(p).points)
  {
  }

  /** The reported score is the clamped reference sum. */
  lemma ScoreOfOutcome(p: string)
    ensures Analyze(p).score == Clamp(ExpectedPoints(OutcomeOf(p)))
  {
    ScoreFormula(p);
    ScoreIsClampedTotal(p);
  }

  /** The reference sum lies in [-4, 7]: at most 3 for length and 4 for classes. */
  lemma ExpectedPointsBounds(o: Outcome)
    ensures -4 <= ExpectedPoints(o) <= 7
  {
  }

  /** The reported score is the sum raised to 0 if negative; the cap at 10
      never applies, and the score is at most 7. */
  lemma ScoreIsSumFlooredAtZero(p: string)
    ensures Analyze(p).score == if Total(p).points < 0 then 0 else Total(p).points
    ensures 0 <= Analyze(p).score <= 7
  {
    ScoreFormula(p);
    ExpectedPointsBounds(OutcomeOf(p));
    ScoreIsClampedTotal(p);
  }

  /** The analyzer never labels a password Strong, although the label itself
      allows it from a score of 8. */
  lemma NeverStrong(p: string)
    ensures Analyze(p).strength != Strong
    ensures Analyze(p).strength == (if Analyze(p).score <= 3 then Weak else Moderate)
  {
    ScoreIsSumFlooredAtZero(p);
  }

  /** A higher score never gets a lower label. */
  lemma StrengthLabelMonotone(a: int, b: int)
    requires a <= b
    ensures StrengthLabel(a).Rank() <= StrengthLabel(b).Rank()
  {
  }

  /** Longer passwords never earn fewer length points. */
  lemma LengthPointsMonotone(m: nat, n: nat)
    requires m <= n
    ensures LengthCheck(m).points <= LengthCheck(n).points
  {
  }

  /** Holding the length tier and the three penalties fixed, more character
      classes never give a lower reference sum. */
  lemma ExpectedPointsMonotone(o: Outcome, o': Outcome)
    requires LengthCheck(o.length).points == LengthCheck(o'.length).points
    requires (o.upper ==> o'.upper) && (o.lower ==> o'.lower)
    requires (o.digit ==> o'.digit) && (o.special ==> o'.special)
    requires o.common == o'.common && o.weakWord == o'.weakWord && o.pattern == o'.pattern
    ensures ExpectedPoints(o) <= ExpectedPoints(o')
  {
  }

  /** Holding the length tier and the three penalties fixed, a password with
      at least the character classes of another never scores lower. */
  lemma MoreClassesNeverLower(p: string, q: string)
    requires LengthCheck(|p|).points == LengthCheck(|q|).points
    requires HasUpper(p) ==> HasUpper(q)
    requires HasLower(p) ==> HasLower(q)
    requires HasDigit(p) ==> HasDigit(q)
    requires HasSpecial(p) ==> HasSpecial(q)
    requires IsCommon(p) == IsCommon(q)
    requires HasWeakWord(p) == HasWeakWord(q)
    requires HasPredictablePattern(p) == HasPredictablePattern(q)
    ensures Analyze(p).score <= Analyze(q).score
  {
    ScoreOfOutcome(p);
    ScoreOfOutcome(q);
    ExpectedPointsMonotone(OutcomeOf(p), OutcomeOf(q));
  }

  // ---- Findings ----

  /** The findings of the sum are the findings of the parts. */
  lemma TotalFindingsSum(p: string)
    ensures Total(p).findings ==
      LengthCheck(|p|).findings + CommonPasswordCheck(Lower(p)).findings
      + WeakWordCheck(Lower(p)).findings + PatternCheck(Lower(p)).findings
  {
  }

  /** The word named in a weak-word finding can be read back from it. */
  lemma WeakWordFindingInjective(v: string, w: string)
    requires WeakWordFinding(v) == WeakWordFinding(w)
    ensures v == w
  {
    assert v == WeakWordFinding(v)[39..39 + |v|];
    assert w == WeakWordFinding(w)[39..39 + |w|];
  }

  /** A weak-word finding is none of the other findings. */
  lemma WeakWordFindingIsDistinct(w: string)
    ensures WeakWordFinding(w) !in [TOO_SHORT_FINDING, COMMON_FINDING, PATTERN_FINDING]
  {
    assert WeakWordFinding(w)[9] == 'c' && WeakWordFinding(w)[27] == 'w';
    assert TOO_SHORT_FINDING[9] != 'c' && COMMON_FINDING[9] != 'c' && PATTERN_FINDING[27] != 'w';
  }

  /** Without a weak word the findings are the reference findings. */
  lemma FindingsWithoutWeakWord(p: string)
    requires !HasWeakWord(p)
    ensures Analyze(p).findings == ExpectedFindings(OutcomeOf(p), [])
  {
    TotalFindingsSum(p);
    WeakWordCheckFires(p);
    PatternCheckFires(p);
  }

  /** With a weak word the findings are the reference findings, naming the
      first weak word in list order. */
  lemma FindingsWithWeakWord(p: string, k: int)
    requires IsFirstWeakWord(p, k)
    ensures Analyze(p).findings == ExpectedFindings(OutcomeOf(p), WEAK_WORDS[k])
  {
    TotalFindingsSum(p);
    WeakWordCheckFires(p);
    PatternCheckFires(p);
  }

  /** A weak-word finding names `w` exactly when `w` is the first listed weak
      word in the lower-cased password. */
  lemma WeakWordReported(p: string, w: string)
    ensures WeakWordFinding(w) in Analyze(p).findings <==>
      exists k :: IsFirstWeakWord(p, k) && WEAK_WORDS[k] == w
  {
    if HasWeakWord(p) {
      var k := FirstContained(WEAK_WORDS, Lower(p));
      assert IsFirstWeakWord(p, k);
      WeakWordReportedWhenFirst(p, w, k);
      forall k' | IsFirstWeakWord(p, k')
        ensures k' == k
      {
        FirstWeakWordUnique(p, k, k');
      }
    } else {
      WeakWordNotReported(p, w);
    }
  }

  /** Only one index can be the first weak word. */
  lemma FirstWeakWordUnique(p: string, k: int, k': int)
    requires IsFirstWeakWord(p, k) && IsFirstWeakWord(p, k')
    ensures k == k'
  {
  }

  /** With `WEAK_WORDS[k]` the first weak word, a weak-word finding names `w`
      exactly when `w` is that word. */
  lemma WeakWordReportedWhenFirst(p: string, w: string, k: int)
    requires IsFirstWeakWord(p, k)
    ensures WeakWordFinding(w) in Analyze(p).findings <==> WEAK_WORDS[k] == w
  {
    WeakWordFindingIsDistinct(w);
    FindingsWithWeakWord(p, k);
    if WeakWordFinding(w) in Analyze(p).findings {
      assert WeakWordFinding(w) == WeakWordFinding(WEAK_WORDS[k]);
      WeakWordFindingInjective(w, WEAK_WORDS[k]);
    }
  }

  /** Without a weak word no weak-word finding is reported. */
  lemma WeakWordNotReported(p: string, w: string)
    requires !HasWeakWord(p)
    ensures WeakWordFinding(w) !in Analyze(p).findings
  {
    WeakWordFindingIsDistinct(w);
    FindingsWithoutWeakWord(p);
  }

  /** The reference findings never repeat and number at most four. */
  lemma ExpectedFindingsDistinct(o: Outcome, word: string)
    ensures Distinct(ExpectedFindings(o, word))
    ensures |ExpectedFindings(o, word)| <= 4
  {
    WeakWordFindingIsDistinct(word);
    var a := When(o.length < 8, TOO_SHORT_FINDING) + When(o.common, COMMON_FINDING);
    DistinctAppendWhen(a, o.weakWord, WeakWordFinding(word));
    a := a + When(o.weakWord, WeakWordFinding(word));
    DistinctAppendWhen(a, o.pattern, PATTERN_FINDING);
  }

  /** Each check reports at most once, so findings never repeat. */
  lemma FindingsDistinct(p: string)
    ensures Distinct(Analyze(p).findings)
    ensures |Analyze(p).findings| <= 4
  {
    if HasWeakWord(p) {
      var k := FirstContained(WEAK_WORDS, Lower(p));
      assert IsFirstWeakWord(p, k);
      FindingsWithWeakWord(p, k);
      ExpectedFindingsDistinct(OutcomeOf(p), WEAK_WORDS[k]);
    } else {
      FindingsWithoutWeakWord(p);
      ExpectedFindingsDistinct(OutcomeOf(p), []);
    }
  }

  // ---- Suggestions ----

  /** The suggestions of the sum are the reference suggestions. */
  lemma TotalSuggestionsSum(p: string)
    ensures Total(p).suggestions == ExpectedSuggestions(OutcomeOf(p))
  {
    var lower, o := Lower(p), OutcomeOf(p);
    WeakWordCheckFires(p);
    PatternCheckFires(p);
    assert LengthCheck(|p|).suggestions == LengthSuggestions(|p|);
    var c := When(o.common, COMMON_SUGGESTION);
    var w := When(o.weakWord, WEAK_WORD_SUGGESTION);
    var t := When(o.pattern, PATTERN_SUGGESTION);
    assert CommonPasswordCheck(lower).suggestions == c;
    assert WeakWordCheck(lower).suggestions == w;
    assert PatternCheck(lower).suggestions == t;
    assert Total(p).suggestions == ComplexitySuggestions(o) + c + w + t;
    ConcatAssociative(ComplexitySuggestions(o), c, w, t);
  }

  /** Re-grouping a concatenation of four lists. A sequence fact only: it
      spares the solver the step on lists of long strings. */
  lemma ConcatAssociative(a: seq<string>, b: seq<string>, c: seq<string>, d: seq<string>)
    ensures a + b + c + d == a + (b + c + d)
  {
  }

  /** Appending an optional entry that is new keeps a list free of duplicates. */
  lemma DistinctAppendWhen(s: seq<string>, flag: bool, x: string)
    requires Distinct(s) && x !in s
    ensures Distinct(s + When(flag, x))
  {
    if flag {
      DistinctAppend(s, x);
    }
  }

  /** Each length or class suggestion is present exactly when its check
      calls for it. */
  lemma ComplexitySuggestionMembership(o: Outcome)
    ensures UPPER_SUGGESTION in ComplexitySuggestions(o) <==> !o.upper
    ensures LOWER_SUGGESTION in ComplexitySuggestions(o) <==> !o.lower
    ensures DIGIT_SUGGESTION in ComplexitySuggestions(o) <==> !o.digit
    ensures SPECIAL_SUGGESTION in ComplexitySuggestions(o) <==> !o.special
    ensures LONGER_SUGGESTION in ComplexitySuggestions(o) <==> 8 <= o.length < 12
    ensures MIN_LENGTH_SUGGESTION in ComplexitySuggestions(o) <==> o.length < 8
  {
    assert UPPER_SUGGESTION[17] != LOWER_SUGGESTION[17];
  }

  /** Each penalty suggestion is present exactly when its penalty applies. */
  lemma PenaltySuggestionMembership(o: Outcome)
    ensures COMMON_SUGGESTION in PenaltySuggestions(o) <==> o.common
    ensures WEAK_WORD_SUGGESTION in PenaltySuggestions(o) <==> o.weakWord
    ensures PATTERN_SUGGESTION in PenaltySuggestions(o) <==> o.pattern
  {
  }

  /** The penalty suggestions differ from each other and from every length
      or class suggestion. */
  lemma PenaltySuggestionsApart(o: Outcome)
    ensures Distinct(PenaltySuggestions(o))
    ensures forall i :: 0 <= i < |PenaltySuggestions(o)| ==>
      PenaltySuggestions(o)[i] !in ComplexitySuggestions(o)
  {
    var t := PenaltySuggestions(o);
    assert forall i :: 0 <= i < |t| ==>
      t[i] in [COMMON_SUGGESTION, WEAK_WORD_SUGGESTION, PATTERN_SUGGESTION];
    ComplexityExcludesPenalties(o);
  }

  /** No penalty suggestion is a length or class suggestion. */
  lemma PenaltyExcludesComplexity(o: Outcome)
    ensures UPPER_SUGGESTION !in PenaltySuggestions(o)
    ensures LOWER_SUGGESTION !in PenaltySuggestions(o)
    ensures DIGIT_SUGGESTION !in PenaltySuggestions(o)
    ensures SPECIAL_SUGGESTION !in PenaltySuggestions(o)
    ensures LONGER_SUGGESTION !in PenaltySuggestions(o)
    ensures MIN_LENGTH_SUGGESTION !in PenaltySuggestions(o)
  {
  }

  /** No length or class suggestion is a penalty suggestion. */
  lemma ComplexityExcludesPenalties(o: Outcome)
    ensures COMMON_SUGGESTION !in ComplexitySuggestions(o)
    ensures WEAK_WORD_SUGGESTION !in ComplexitySuggestions(o)
    ensures PATTERN_SUGGESTION !in ComplexitySuggestions(o)
  {
  }

  /** No two length or class checks append the same suggestion. */
  lemma ComplexitySuggestionsDistinct(o: Outcome)
    ensures Distinct(ComplexitySuggestions(o))
  {
    assert UPPER_SUGGESTION[17] != LOWER_SUGGESTION[17];
    var a := LengthSuggestions(o.length);
    DistinctAppendWhen(a, !o.upper, UPPER_SUGGESTION);
    a := a + When(!o.upper, UPPER_SUGGESTION);
    DistinctAppendWhen(a, !o.lower, LOWER_SUGGESTION);
    a := a + When(!o.lower, LOWER_SUGGESTION);
    DistinctAppendWhen(a, !o.digit, DIGIT_SUGGESTION);
    a := a + When(!o.digit, DIGIT_SUGGESTION);
    DistinctAppendWhen(a, !o.special, SPECIAL_SUGGESTION);
  }

  /** No two checks append the same suggestion. */
  lemma ExpectedSuggestionsDistinct(o: Outcome)
    ensures Distinct(ExpectedSuggestions(o))
  {
    ComplexitySuggestionsDistinct(o);
    PenaltySuggestionsApart(o);
    DistinctConcat(ComplexitySuggestions(o), PenaltySuggestions(o));
  }

  /** Each suggestion is present exactly when its check calls for it. */
  lemma ExpectedSuggestionMembership(o: Outcome)
    ensures UPPER_SUGGESTION in ExpectedSuggestions(o) <==> !o.upper
    ensures LOWER_SUGGESTION in ExpectedSuggestions(o) <==> !o.lower
    ensures DIGIT_SUGGESTION in ExpectedSuggestions(o) <==> !o.digit
    ensures SPECIAL_SUGGESTION in ExpectedSuggestions(o) <==> !o.special
    ensures COMMON_SUGGESTION in ExpectedSuggestions(o) <==> o.common
    ensures WEAK_WORD_SUGGESTION in ExpectedSuggestions(o) <==> o.weakWord
    ensures PATTERN_SUGGESTION in ExpectedSuggestions(o) <==> o.pattern
    ensures LONGER_SUGGESTION in ExpectedSuggestions(o) <==> 8 <= o.length < 12
    ensures MIN_LENGTH_SUGGESTION in ExpectedSuggestions(o) <==> o.length < 8
  {
    ComplexitySuggestionMembership(o);
    PenaltySuggestionMembership(o);
    ComplexityExcludesPenalties(o);
    PenaltyExcludesComplexity(o);
  }

  /** The reported suggestions are exactly the appended ones: since no two
      checks append the same text, the de-duplication removes nothing. */
  lemma SuggestionsExact(p: string)
    ensures Analyze(p).suggestions == Total(p).suggestions == ExpectedSuggestions(OutcomeOf(p))
  {
    TotalSuggestionsSum(p);
    ExpectedSuggestionsDistinct(OutcomeOf(p));
    DedupOfDistinct(ExpectedSuggestions(OutcomeOf(p)));
  }

  /** Each class is suggested exactly when it is missing. */
  lemma ClassSuggestedIffMissing(p: string)
    ensures UPPER_SUGGESTION in Analyze(p).suggestions <==> !HasUpper(p)
    ensures LOWER_SUGGESTION in Analyze(p).suggestions <==> !HasLower(p)
    ensures DIGIT_SUGGESTION in Analyze(p).suggestions <==> !HasDigit(p)
    ensures SPECIAL_SUGGESTION in Analyze(p).suggestions <==> !HasSpecial(p)
  {
    SuggestionsExact(p);
    ExpectedSuggestionMembership(OutcomeOf(p));
  }

  /** The denylist, weak-word and pattern checks are each suggested exactly
      when they apply; which length suggestion appears depends on the tier. */
  lemma PenaltySuggestedIffApplies(p: string)
    ensures COMMON_SUGGESTION in Analyze(p).suggestions <==> IsCommon(p)
    ensures WEAK_WORD_SUGGESTION in Analyze(p).suggestions <==> HasWeakWord(p)
    ensures PATTERN_SUGGESTION in Analyze(p).suggestions <==> HasPredictablePattern(p)
    ensures LONGER_SUGGESTION in Analyze(p).suggestions <==> 8 <= |p| < 12
    ensures MIN_LENGTH_SUGGESTION in Analyze(p).suggestions <==> |p| < 8
  {
    SuggestionsExact(p);
    ExpectedSuggestionMembership(OutcomeOf(p));
  }

  // ---- The whole report ----

  /** The reference report of an outcome, `word` being the first weak word. */
  function ExpectedReport(o: Outcome, word: string): Report {
    var score := Clamp(ExpectedPoints(o));
    Report(score, StrengthLabel(score), ExpectedFindings(o, word), ExpectedSuggestions(o))
  }

  /** The report is the reference report of which checks fire, given the
      first weak word found (any index when there is none). */
  lemma AnalyzeIsExpectedReport(p: string, k: int)
    requires IsFirstWeakWord(p, k) || (!HasWeakWord(p) && 0 <= k < |WEAK_WORDS|)
    ensures Analyze(p) == ExpectedReport(OutcomeOf(p), WEAK_WORDS[k])
  {
    ScoreFormula(p);
    ScoreIsClampedTotal(p);
    if HasWeakWord(p) {
      FindingsWithWeakWord(p, k);
    } else {
      FindingsWithoutWeakWord(p);
    }
    SuggestionsExact(p);
  }
}
