/** Character classes, lower-casing and substring search over ASCII text.
    These stand in for the regular expressions and `str` builtins the
    analyzer uses: `[A-Z]`, `[a-z]`, `\d`, the special-character class,
    `str.lower()`, the `in` operator on strings and the pattern `(.)\1\1`. */
module Text {

  predicate IsUpper(c: char) { 'A' <= c <= 'Z' }
  predicate IsLower(c: char) { 'a' <= c <= 'z' }
  predicate IsDigit(c: char) { '0' <= c <= '9' }

  /** The members of the special-character class: every ASCII punctuation
      character (the class lists `:` twice; that does not matter to a set). */
  const SPECIAL_CHARS: string := "!@#$%^&*(),.?\":{}|<>_-+=/\\[]`~';:"

  predicate IsSpecial(c: char) { c in SPECIAL_CHARS }

  /** The ASCII punctuation characters: the printable characters other than
      letters, digits and space. */
  predicate IsAsciiPunctuation(c: char) {
    ('!' <= c <= '/') || (':' <= c <= '@') || ('[' <= c <= '`') || ('{' <= c <= '~')
  }

  predicate HasUpper(s: string) { exists i :: 0 <= i < |s| && IsUpper(s[i]) }
  predicate HasLower(s: string) { exists i :: 0 <= i < |s| && IsLower(s[i]) }
  predicate HasDigit(s: string) { exists i :: 0 <= i < |s| && IsDigit(s[i]) }
  predicate HasSpecial(s: string) { exists i :: 0 <= i < |s| && IsSpecial(s[i]) }

  /** ASCII lower-casing of one character. */
  function LowerChar(c: char): (r: char)
    ensures !IsUpper(r)
    ensures IsUpper(c) ==> IsLower(r) && r as int == c as int + 32
    ensures !IsUpper(c) ==> r == c
  {
    if IsUpper(c) then (c as int + 32) as char else c
  }

  /** ASCII lower-casing of a string. */
  function Lower(s: string): (r: string)
    ensures |r| == |s|
    ensures forall i :: 0 <= i < |r| ==> !IsUpper(r[i])
    ensures forall i :: 0 <= i < |s| && !IsUpper(s[i]) ==> r[i] == s[i]
    ensures forall i :: 0 <= i < |s| ==> r[i] == LowerChar(s[i])
  {
    seq(|s|, i requires 0 <= i < |s| => LowerChar(s[i]))
  }

  /** `sub` occurs in `s` starting at index `i`. */
  predicate OccursAt(s: string, sub: string, i: int) {
    0 <= i <= |s| - |sub| && s[i..i + |sub|] == sub
  }

  /** Python's `sub in s` for strings. */
  predicate Contains(s: string, sub: string) {
    exists i :: 0 <= i <= |s| - |sub| && OccursAt(s, sub, i)
  }

  /** A run of three equal characters other than a newline: what the
      regular expression `(.)\1\1` finds, since `.` does not match `\n`. */
  predicate HasTripleRepeat(s: string) {
    exists i :: 0 <= i && i + 2 < |s| && s[i] != '\n' && s[i] == s[i + 1] && s[i + 1] == s[i + 2]
  }

  /** A string with no upper-case letter is its own lower-case form. */
  lemma LowerOfLowerCase(s: string)
    requires forall i :: 0 <= i < |s| ==> !IsUpper(s[i])
    ensures Lower(s) == s
  {
  }

  /** Lower-casing is idempotent. */
  lemma LowerIdempotent(s: string)
    ensures Lower(Lower(s)) == Lower(s)
  {
    LowerOfLowerCase(Lower(s));
  }

  /** A character of `sub` that `s` lacks rules out every occurrence. */
  lemma MissingCharNotContained(s: string, sub: string, j: nat)
    requires j < |sub| && sub[j] !in s
    ensures !Contains(s, sub)
  {
  }

  /** Adding characters never removes a character class. */
  lemma ClassesPersist(s: string, t: string)
    ensures HasUpper(s) ==> HasUpper(s + t)
    ensures HasLower(s) ==> HasLower(s + t)
    ensures HasDigit(s) ==> HasDigit(s + t)
    ensures HasSpecial(s) ==> HasSpecial(s + t)
  {
    var st := s + t;
    assert forall i :: 0 <= i < |s| ==> st[i] == s[i];
  }

  /** A non-empty string of lower-case letters has the lower-case class
      and no other. */
  lemma LowerCaseOnlyClasses(s: string)
    requires |s| > 0 && forall i :: 0 <= i < |s| ==> IsLower(s[i])
    ensures !HasUpper(s) && HasLower(s) && !HasDigit(s) && !HasSpecial(s)
  {
    assert IsLower(s[0]);
    forall i | 0 <= i < |s|
      ensures !IsSpecial(s[i])
    {
      assert forall j :: 0 <= j < |SPECIAL_CHARS| ==> !IsLower(SPECIAL_CHARS[j]);
    }
  }

  /** The special-character class is exactly ASCII punctuation. */
  lemma SpecialIsAsciiPunctuation(c: char)
    ensures IsSpecial(c) <==> IsAsciiPunctuation(c)
  {
  }
}
