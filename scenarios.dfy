/** The analyzer's result on a few concrete passwords. Each is derived from
    which checks fire on the password and the reference report of that
    outcome; the password is a parameter fixed by the precondition, so that
    the verifier reasons about the checks rather than unfolding them on a
    literal. */
module AnalyzerScenarios {
  import opened Text
  import opened Sequences
  import opened PasswordAnalyzer
  import opened AnalyzerProperties

  /** Five singletons concatenate to the list of their elements. A sequence
      fact only: stated over arbitrary strings, it keeps the message texts out
      of the sequence equalities below. */
  lemma FiveSingletons(a: string, b: string, c: string, d: string, e: string)
    ensures [a] + [b] + [c] + [d] + [e] == [a, b, c, d, e]
  {
  }

  // ---- The empty password ----

  lemma EmptyOutcome(p: string)
    requires |p| == 0
    ensures OutcomeOf(p) == Outcome(0, false, false, false, false, false, false, false)
  {
    assert !IsCommon(p);
  }

  lemma EmptyScore(o: Outcome)
    requires o == Outcome(0, false, false, false, false, false, false, false)
    ensures Clamp(ExpectedPoints(o)) == 0
  {
  }

  lemma EmptyFindings(o: Outcome)
    requires o == Outcome(0, false, false, false, false, false, false, false)
    ensures ExpectedFindings(o, WEAK_WORDS[0]) == [TOO_SHORT_FINDING]
  {
  }

  lemma EmptySuggestions(o: Outcome)
    requires o == Outcome(0, false, false, false, false, false, false, false)
    ensures ExpectedSuggestions(o) ==
      [MIN_LENGTH_SUGGESTION, UPPER_SUGGESTION, LOWER_SUGGESTION, DIGIT_SUGGESTION, SPECIAL_SUGGESTION]
  {
    assert PenaltySuggestions(o) == [];
    assert ComplexitySuggestions(o) == [MIN_LENGTH_SUGGESTION] + [UPPER_SUGGESTION]
      + [LOWER_SUGGESTION] + [DIGIT_SUGGESTION] + [SPECIAL_SUGGESTION];
    FiveSingletons(MIN_LENGTH_SUGGESTION, UPPER_SUGGESTION, LOWER_SUGGESTION, DIGIT_SUGGESTION, SPECIAL_SUGGESTION);
  }

  /** The empty password scores 0, is Weak, is reported as too short and gets
      the minimum-length suggestion and all four class suggestions. */
  lemma EmptyPasswordReport(p: string)
    requires |p| == 0
    ensures Analyze(p).score == 0 && Analyze(p).strength == Weak
    ensures Analyze(p).findings == [TOO_SHORT_FINDING]
    ensures Analyze(p).suggestions ==
      [MIN_LENGTH_SUGGESTION, UPPER_SUGGESTION, LOWER_SUGGESTION, DIGIT_SUGGESTION, SPECIAL_SUGGESTION]
  {
    EmptyOutcome(p);
    AnalyzeIsExpectedReport(p, 0);
    EmptyScore(OutcomeOf(p));
    EmptyFindings(OutcomeOf(p));
    EmptySuggestions(OutcomeOf(p));
  }

  // ---- "password" ----

  lemma PasswordPatterns(p: string)
    requires p == "password"
    ensures !HasTripleRepeat(p)
    ensures !ContainsAny(p, NUMBER_SEQUENCES)
    ensures !ContainsAny(p, KEYBOARD_WALKS)
  {
    forall k | 0 <= k < |NUMBER_SEQUENCES|
      ensures !Contains(p, NUMBER_SEQUENCES[k])
    {
      MissingCharNotContained(p, NUMBER_SEQUENCES[k], 0);
    }
    MissingCharNotContained(p, KEYBOARD_WALKS[0], 0);
    MissingCharNotContained(p, KEYBOARD_WALKS[1], 3);
    MissingCharNotContained(p, KEYBOARD_WALKS[2], 0);
  }

  lemma PasswordOutcome(p: string)
    requires p == "password"
    ensures IsFirstWeakWord(p, 0)
    ensures OutcomeOf(p) == Outcome(8, false, true, false, false, true, true, false)
  {
    LowerOfLowerCase(p);
    assert IsCommon(p);
    LowerCaseOnlyClasses(p);
    assert OccursAt(p, WEAK_WORDS[0], 0);
    assert HasWeakWord(p);
    PasswordPatterns(p);
    assert !HasPredictablePattern(p);
  }

  lemma PasswordReportValue(o: Outcome)
    requires o == Outcome(8, false, true, false, false, true, true, false)
    ensures Clamp(ExpectedPoints(o)) == 0
    ensures ExpectedFindings(o, WEAK_WORDS[0]) == [COMMON_FINDING, WeakWordFinding("password")]
    ensures ExpectedSuggestions(o) ==
      [LONGER_SUGGESTION, UPPER_SUGGESTION, DIGIT_SUGGESTION, SPECIAL_SUGGESTION,
       COMMON_SUGGESTION, WEAK_WORD_SUGGESTION]
  {
  }

  /** "password" scores 0 and is Weak: it is on the denylist and contains the
      weak word "password", and it has only lower-case letters. */
  lemma PasswordReport(p: string)
    requires p == "password"
    ensures Analyze(p).score == 0 && Analyze(p).strength == Weak
    ensures Analyze(p).findings == [COMMON_FINDING, WeakWordFinding("password")]
    ensures Analyze(p).suggestions ==
      [LONGER_SUGGESTION, UPPER_SUGGESTION, DIGIT_SUGGESTION, SPECIAL_SUGGESTION,
       COMMON_SUGGESTION, WEAK_WORD_SUGGESTION]
  {
    PasswordOutcome(p);
    AnalyzeIsExpectedReport(p, 0);
    PasswordReportValue(OutcomeOf(p));
  }

  // ---- "aaaaaaaa" ----

  lemma RepeatedOutcome(p: string)
    requires p == "aaaaaaaa"
    ensures OutcomeOf(p) == Outcome(8, false, true, false, false, false, false, true)
  {
    LowerOfLowerCase(p);
    assert !IsCommon(p);
    LowerCaseOnlyClasses(p);
    MissingCharNotContained(p, WEAK_WORDS[0], 0);
    MissingCharNotContained(p, WEAK_WORDS[1], 1);
    MissingCharNotContained(p, WEAK_WORDS[2], 0);
    MissingCharNotContained(p, WEAK_WORDS[3], 0);
    assert !HasWeakWord(p);
    assert p[0] != '\n' && p[0] == p[1] && p[1] == p[2];
    assert HasTripleRepeat(p);
  }

  lemma RepeatedScoreAndFindings(o: Outcome)
    requires o == Outcome(8, false, true, false, false, false, false, true)
    ensures Clamp(ExpectedPoints(o)) == 1
    ensures ExpectedFindings(o, WEAK_WORDS[0]) == [PATTERN_FINDING]
  {
  }

  lemma RepeatedSuggestions(o: Outcome)
    requires o == Outcome(8, false, true, false, false, false, false, true)
    ensures ExpectedSuggestions(o) ==
      [LONGER_SUGGESTION, UPPER_SUGGESTION, DIGIT_SUGGESTION, SPECIAL_SUGGESTION, PATTERN_SUGGESTION]
  {
    assert ComplexitySuggestions(o) == [LONGER_SUGGESTION] + [UPPER_SUGGESTION]
      + [DIGIT_SUGGESTION] + [SPECIAL_SUGGESTION];
    assert PenaltySuggestions(o) == [PATTERN_SUGGESTION];
    FiveSingletons(LONGER_SUGGESTION, UPPER_SUGGESTION, DIGIT_SUGGESTION, SPECIAL_SUGGESTION, PATTERN_SUGGESTION);
  }

  /** "aaaaaaaa" scores 1 (one length point and one for lower case, minus the
      repeated-character pattern) and is Weak. */
  lemma RepeatedCharacterReport(p: string)
    requires p == "aaaaaaaa"
    ensures Analyze(p).score == 1 && Analyze(p).strength == Weak
    ensures Analyze(p).findings == [PATTERN_FINDING]
    ensures Analyze(p).suggestions ==
      [LONGER_SUGGESTION, UPPER_SUGGESTION, DIGIT_SUGGESTION, SPECIAL_SUGGESTION, PATTERN_SUGGESTION]
  {
    RepeatedOutcome(p);
    AnalyzeIsExpectedReport(p, 0);
    RepeatedScoreAndFindings(OutcomeOf(p));
    RepeatedSuggestions(OutcomeOf(p));
  }

  // ---- "Tr0ub4dor&3XQ!" ----

  lemma MixedClasses(p: string)
    requires p == "Tr0ub4dor&3XQ!"
    ensures HasUpper(p) && HasLower(p) && HasDigit(p) && HasSpecial(p)
  {
    assert IsUpper(p[0]) && IsLower(p[1]) && IsDigit(p[2]) && IsSpecial(p[9]);
  }

  lemma MixedLower(p: string)
    requires p == "Tr0ub4dor&3XQ!"
    ensures Lower(p) == "tr0ub4dor&3xq!"
  {
  }

  lemma MixedNoWeakWord(l: string)
    requires l == "tr0ub4dor&3xq!"
    ensures forall k :: 0 <= k < |WEAK_WORDS| ==> !Contains(l, WEAK_WORDS[k])
  {
    MissingCharNotContained(l, WEAK_WORDS[0], 0);
    MissingCharNotContained(l, WEAK_WORDS[1], 0);
    MissingCharNotContained(l, WEAK_WORDS[2], 0);
    MissingCharNotContained(l, WEAK_WORDS[3], 0);
  }

  lemma MixedNoTripleRepeat(l: string)
    requires l == "tr0ub4dor&3xq!"
    ensures !HasTripleRepeat(l)
  {
  }

  lemma MixedNoNumberRun(l: string)
    requires l == "tr0ub4dor&3xq!"
    ensures !ContainsAny(l, NUMBER_SEQUENCES)
  {
    MissingCharNotContained(l, NUMBER_SEQUENCES[0], 0);
    MissingCharNotContained(l, NUMBER_SEQUENCES[1], 0);
    MissingCharNotContained(l, NUMBER_SEQUENCES[2], 2);
    MissingCharNotContained(l, NUMBER_SEQUENCES[3], 1);
    MissingCharNotContained(l, NUMBER_SEQUENCES[4], 0);
    MissingCharNotContained(l, NUMBER_SEQUENCES[5], 0);
    MissingCharNotContained(l, NUMBER_SEQUENCES[6], 0);
  }

  lemma MixedNoKeyboardWalk(l: string)
    requires l == "tr0ub4dor&3xq!"
    ensures !ContainsAny(l, KEYBOARD_WALKS)
  {
    MissingCharNotContained(l, KEYBOARD_WALKS[0], 1);
    MissingCharNotContained(l, KEYBOARD_WALKS[1], 0);
    MissingCharNotContained(l, KEYBOARD_WALKS[2], 0);
  }

  /** No denylisted password has 14 characters. */
  lemma NotCommonByLength(l: string)
    requires |l| == 14
    ensures l !in COMMON_PASSWORDS
  {
  }

  lemma MixedOutcome(p: string)
    requires p == "Tr0ub4dor&3XQ!"
    ensures OutcomeOf(p) == Outcome(14, true, true, true, true, false, false, false)
  {
    MixedClasses(p);
    MixedLower(p);
    var l := Lower(p);
    NotCommonByLength(l);
    MixedNoWeakWord(l);
    MixedNoTripleRepeat(l);
    MixedNoNumberRun(l);
    MixedNoKeyboardWalk(l);
    assert !HasWeakWord(p);
    assert !HasPredictablePattern(p);
  }

  lemma MixedReportValue(o: Outcome)
    requires o == Outcome(14, true, true, true, true, false, false, false)
    ensures Clamp(ExpectedPoints(o)) == 6
    ensures ExpectedFindings(o, WEAK_WORDS[0]) == []
    ensures ExpectedSuggestions(o) == []
  {
  }

  /** "Tr0ub4dor&3XQ!" scores 6 and is Moderate with nothing to report: two
      length points for 14 characters and one for each class. */
  lemma MixedPasswordReport(p: string)
    requires p == "Tr0ub4dor&3XQ!"
    ensures Analyze(p).score == 6 && Analyze(p).strength == Moderate
    ensures Analyze(p).findings == [] && Analyze(p).suggestions == []
  {
    MixedOutcome(p);
    AnalyzeIsExpectedReport(p, 0);
    MixedReportValue(OutcomeOf(p));
  }
}
