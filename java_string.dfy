/**
 * The parts of java.lang.String that the weather core relies on, restricted to
 * ASCII case mapping: `toUpperCase`, `equalsIgnoreCase`, `trim` and `isEmpty`.
 */
module JavaString {

  /** Character.toUpperCase on the ASCII range; every other character is left as it is. */
  function ToUpper(c: char): (u: char)
    ensures 'a' <= c <= 'z' ==> 'A' <= u <= 'Z' && u as int == c as int - 32
    ensures !('a' <= c <= 'z') ==> u == c
  {
    if 'a' <= c <= 'z' then (c as int - 32) as char else c
  }

  /** True of a character that has no different upper-case form. */
  predicate IsUpperForm(c: char) {
    !('a' <= c <= 'z')
  }

  lemma ToUpperIdempotent(c: char)
    ensures IsUpperForm(ToUpper(c))
    ensures ToUpper(ToUpper(c)) == ToUpper(c)
  {
  }

  /**
   * String.toUpperCase, character by character: the same length, no
   * lower-case letter left, and every other character kept.
   */
  function UpperCase(s: string): (r: string)
    ensures |r| == |s|
    ensures forall i :: 0 <= i < |r| ==> IsUpperForm(r[i])
    ensures forall i :: 0 <= i < |s| && IsUpperForm(s[i]) ==> r[i] == s[i]
    ensures forall i :: 0 <= i < |s| && 'a' <= s[i] <= 'z' ==> r[i] as int == s[i] as int - 32
  {
    seq(|s|, i requires 0 <= i < |s| => ToUpper(s[i]))
  }

  /** A string with no lower-case letter is its own upper-case form. */
  lemma UpperCaseOfUpper(s: string)
    requires forall i :: 0 <= i < |s| ==> IsUpperForm(s[i])
    ensures UpperCase(s) == s
  {
  }

  /**
   * String.equalsIgnoreCase: the lengths agree and the characters agree
   * position by position once both are upper-cased.
   */
  predicate EqualsIgnoreCase(a: string, b: string): (eq: bool)
    ensures eq ==> |a| == |b|
    ensures a == b ==> eq
  {
    |a| == |b| && forall i :: 0 <= i < |a| ==> ToUpper(a[i]) == ToUpper(b[i])
  }

  /** Comparing ignoring case is comparing the upper-case forms. */
  lemma EqualsIgnoreCaseIffSameUpperCase(a: string, b: string)
    ensures EqualsIgnoreCase(a, b) <==> UpperCase(a) == UpperCase(b)
  {
  }

  /** The characters String.trim strips: every code point at or below U+0020. */
  predicate IsTrimmable(c: char) {
    c <= ' '
  }

  /** The number of leading trimmable characters: where String.trim's result starts. */
  function LeadingTrimmable(s: string): (n: nat)
    ensures n <= |s|
    ensures forall i :: 0 <= i < n ==> IsTrimmable(s[i])
    ensures n < |s| ==> !IsTrimmable(s[n])
  {
    if s != [] && IsTrimmable(s[0]) then 1 + LeadingTrimmable(s[1..]) else 0
  }

  /** The number of trailing trimmable characters: how far String.trim moves its end back. */
  function TrailingTrimmable(s: string): (n: nat)
    ensures n <= |s|
    ensures forall i :: |s| - n <= i < |s| ==> IsTrimmable(s[i])
    ensures n < |s| ==> !IsTrimmable(s[|s| - n - 1])
  {
    if s != [] && IsTrimmable(s[|s| - 1]) then 1 + TrailingTrimmable(s[..|s| - 1]) else 0
  }

  /**
   * String.trim: the contiguous part of `s` left after removing its leading
   * and trailing trimmable characters; it is empty or starts and ends with a
   * character trim keeps. The end index is searched only after the start,
   * so an all-trimmable string gives "".
   */
  function Trim(s: string): (r: string)
    ensures var a := LeadingTrimmable(s);
      a + |r| <= |s| && r == s[a..a + |r|] &&
      (forall i :: 0 <= i < a ==> IsTrimmable(s[i])) &&
      (forall i :: a + |r| <= i < |s| ==> IsTrimmable(s[i]))
    ensures r == [] || (!IsTrimmable(r[0]) && !IsTrimmable(r[|r| - 1]))
  {
    var st := LeadingTrimmable(s);
    var len := |s| - TrailingTrimmable(s[st..]);
    s[st..len]
  }

  /** `s.trim().isEmpty()`: true exactly when every character of `s` is trimmable. */
  predicate IsBlank(s: string): (b: bool)
    ensures b <==> forall i :: 0 <= i < |s| ==> IsTrimmable(s[i])
  {
    BlankIffAllTrimmable(s);
    |Trim(s)| == 0
  }

  /** Trimming leaves nothing exactly when every character is trimmable. */
  lemma BlankIffAllTrimmable(s: string)
    ensures |Trim(s)| == 0 <==> forall i :: 0 <= i < |s| ==> IsTrimmable(s[i])
  {
  }
}
