/**
 * The password-strength rule applied by sign-up: the regular expression
 *   ^(?=.*[a-z])(?=.*[A-Z])(?=.*\d)(?=.*[\W_]).{8,}$
 * evaluated by JavaScript without flags. Without the `s` flag `.` matches
 * every UTF-16 code unit except a line terminator; without the `u` flag a
 * character outside the Basic Multilingual Plane is two code units, so it
 * counts twice towards the minimum length.
 */
module Passwords {

  /** The characters `.` refuses: LF, CR, LINE SEPARATOR, PARAGRAPH SEPARATOR. */
  predicate IsLineTerminator(c: char) {
    c == '\n' || c == '\r' || c == '\U{2028}' || c == '\U{2029}'
  }

  /** `[a-z]` */
  predicate IsLower(c: char) { 'a' <= c <= 'z' }

  /** `[A-Z]` */
  predicate IsUpper(c: char) { 'A' <= c <= 'Z' }

  /** `\d`, which is ASCII-only in JavaScript. */
  predicate IsDigit(c: char) { '0' <= c <= '9' }

  /** `\w` */
  predicate IsWordChar(c: char) { IsLower(c) || IsUpper(c) || IsDigit(c) || c == '_' }

  /** `[\W_]`: anything but an ASCII letter or digit. */
  predicate IsSpecial(c: char) { !IsWordChar(c) || c == '_' }

  /** The minimum length of `.{8,}`. */
  const MinLength: nat := 8

  /** How many UTF-16 code units encode `c`. */
  function CodeUnits(c: char): nat {
    if c as int > 0xFFFF then 2 else 1
  }

  /** The length JavaScript reports for `s`: its number of UTF-16 code units. */
  function Utf16Length(s: string): (n: nat)
    ensures |s| <= n <= 2 * |s|
    ensures (forall i :: 0 <= i < |s| ==> s[i] as int <= 0xFFFF) ==> n == |s|
  {
    if s == [] then 0 else CodeUnits(s[0]) + Utf16Length(s[1..])
  }

  /** Some character of `s` satisfies `cls`. */
  predicate Has(s: string, cls: char -> bool) {
    exists i :: 0 <= i < |s| && cls(s[i])
  }

  /**
   * The rule in plain words: no line terminator, at least 8 code units, and
   * at least one lower-case letter, upper-case letter, digit and special
   * character.
   */
  predicate IsStrong(p: string) {
    && (forall i :: 0 <= i < |p| ==> !IsLineTerminator(p[i]))
    && Utf16Length(p) >= MinLength
    && Has(p, IsLower)
    && Has(p, IsUpper)
    && Has(p, IsDigit)
    && Has(p, IsSpecial)
  }

  /**
   * The regular expression read construct by construct. A lookahead
   * `(?=.*C)` anchored at the start succeeds when some position holds a
   * `C` character and `.*` can reach it, that is, no line terminator
   * comes before it.
   */
  predicate LookaheadFinds(s: string, cls: char -> bool) {
    exists i :: 0 <= i < |s| && cls(s[i]) && forall j :: 0 <= j < i ==> !IsLineTerminator(s[j])
  }

  /** `.{min,}$` from the start: `.` consumes the whole input, `min` code units or more. */
  predicate DotsToEnd(s: string, min: nat) {
    (forall i :: 0 <= i < |s| ==> !IsLineTerminator(s[i])) && Utf16Length(s) >= min
  }

  /** `passwordRegex.test(p)` */
  predicate RegexMatches(p: string) {
    && LookaheadFinds(p, IsLower)
    && LookaheadFinds(p, IsUpper)
    && LookaheadFinds(p, IsDigit)
    && LookaheadFinds(p, IsSpecial)
    && DotsToEnd(p, MinLength)
  }

  /** Once `.` spans the whole input, a lookahead finds exactly what a plain search finds. */
  lemma LookaheadWithoutTerminators(s: string, cls: char -> bool)
    requires forall i :: 0 <= i < |s| ==> !IsLineTerminator(s[i])
    ensures LookaheadFinds(s, cls) <==> Has(s, cls)
  {
    if Has(s, cls) {
      var i :| 0 <= i < |s| && cls(s[i]);
      assert forall j :: 0 <= j < i ==> !IsLineTerminator(s[j]);
    }
  }

  /** The regular expression accepts exactly the strong passwords. */
  lemma RegexMatchesIffStrong(p: string)
    ensures RegexMatches(p) <==> IsStrong(p)
  {
    if forall i :: 0 <= i < |p| ==> !IsLineTerminator(p[i]) {
      LookaheadWithoutTerminators(p, IsLower);
      LookaheadWithoutTerminators(p, IsUpper);
      LookaheadWithoutTerminators(p, IsDigit);
      LookaheadWithoutTerminators(p, IsSpecial);
    }
  }

  /** A password without each of the four classes is refused whatever its length. */
  lemma MissingClassIsWeak(p: string)
    requires !Has(p, IsLower) || !Has(p, IsUpper) || !Has(p, IsDigit) || !Has(p, IsSpecial)
    ensures !RegexMatches(p)
  {
    RegexMatchesIffStrong(p);
  }

  /** A password of fewer than 8 characters all inside the BMP is refused. */
  lemma ShortIsWeak(p: string)
    requires |p| < MinLength
    requires forall i :: 0 <= i < |p| ==> p[i] as int <= 0xFFFF
    ensures !RegexMatches(p)
  {
  }

  /**
   * Six characters can pass: two characters outside the BMP count as four
   * code units, so "Aa1!" followed by two emoji reaches the minimum of 8.
   */
  lemma SixAstralCharactersPass()
    ensures RegexMatches("Aa1!\U{1F600}\U{1F600}")
    ensures |"Aa1!\U{1F600}\U{1F600}"| == 6
  {
    var p := "Aa1!\U{1F600}\U{1F600}";
    assert IsStrong(p) by {
      assert Utf16Length(p) == 8;
      assert IsUpper(p[0]) && IsLower(p[1]) && IsDigit(p[2]) && IsSpecial(p[3]);
      assert forall i :: 0 <= i < |p| ==> !IsLineTerminator(p[i]);
    }
    RegexMatchesIffStrong(p);
  }
}
