/**
 * The JavaScript string operations the core relies on: `String.prototype.trim`
 * (the blank-field check of both forms) and the first-letter capitalisation
 * `s.charAt(0).toUpperCase() + s.slice(1)` used for the mood column.
 */
module JsText {

  /** The characters `trim` removes: ECMAScript WhiteSpace and LineTerminator. */
  predicate IsWhitespace(c: char) {
    || c == '\t' || c == '\n' || c == '\U{000B}' || c == '\U{000C}' || c == '\r'
    || c == ' ' || c == '\U{00A0}' || c == '\U{1680}'
    || ('\U{2000}' <= c <= '\U{200A}')
    || c == '\U{2028}' || c == '\U{2029}' || c == '\U{202F}' || c == '\U{205F}'
    || c == '\U{3000}' || c == '\U{FEFF}'
  }

  /** Number of white-space characters at the front of `s`. */
  function LeadingBlanks(s: string): (k: nat)
    ensures k <= |s|
    ensures forall i :: 0 <= i < k ==> IsWhitespace(s[i])
    ensures k < |s| ==> !IsWhitespace(s[k])
  {
    if s == [] || !IsWhitespace(s[0]) then 0
    else
      var k := LeadingBlanks(s[1..]);
      assert forall i :: 1 <= i < 1 + k ==> s[i] == s[1..][i - 1];
      1 + k
  }

  /** Where the run of white space that ends at `hi` begins, scanning back no further than `lo`. */
  function TrailingStart(s: string, lo: nat, hi: nat): (k: nat)
    requires lo <= hi <= |s|
    ensures lo <= k <= hi
    ensures forall i :: k <= i < hi ==> IsWhitespace(s[i])
    ensures k > lo ==> !IsWhitespace(s[k - 1])
    decreases hi
  {
    if hi == lo || !IsWhitespace(s[hi - 1]) then hi
    else TrailingStart(s, lo, hi - 1)
  }

  /**
   * `s.trim()`: the slice of `s` left after removing white space at both ends.
   * Everything removed is white space, and what is kept neither starts nor ends
   * with white space; the result is empty exactly when `s` is all white space.
   */
  function Trim(s: string): (r: string)
    ensures LeadingBlanks(s) + |r| <= |s|
    ensures r == s[LeadingBlanks(s)..LeadingBlanks(s) + |r|]
    ensures forall i :: 0 <= i < |s| && !(LeadingBlanks(s) <= i < LeadingBlanks(s) + |r|) ==> IsWhitespace(s[i])
    ensures r != [] ==> !IsWhitespace(r[0]) && !IsWhitespace(r[|r| - 1])
    ensures r == [] <==> forall i :: 0 <= i < |s| ==> IsWhitespace(s[i])
  {
    var a := LeadingBlanks(s);
    var k := TrailingStart(s, a, |s|);
    KeptPart(s, a, k);
    s[a..k]
  }

  /** The part `trim` keeps: bounded by non-blank characters, and empty only for an all-blank string. */
  lemma KeptPart(s: string, a: nat, k: nat)
    requires a == LeadingBlanks(s) && k == TrailingStart(s, a, |s|)
    ensures a < |s| ==> a < k
    ensures a < k ==> !IsWhitespace(s[a]) && !IsWhitespace(s[k - 1])
    ensures a == k <==> forall i :: 0 <= i < |s| ==> IsWhitespace(s[i])
  {
  }

  /** `!s.trim()`: the trimmed string is empty, hence falsy. */
  predicate IsBlank(s: string) {
    Trim(s) == []
  }

  /** `toUpperCase` on one character, for the ASCII letters. */
  function UpperAscii(c: char): char {
    if 'a' <= c <= 'z' then (c as int - 32) as char else c
  }

  /**
   * `s.charAt(0).toUpperCase() + s.slice(1)`: the first character upper-cased,
   * the rest unchanged; `charAt(0)` of the empty string is empty.
   */
  function Capitalize(s: string): (r: string)
    ensures |r| == |s|
    ensures forall i :: 1 <= i < |s| ==> r[i] == s[i]
    ensures s != [] ==> r[0] == UpperAscii(s[0])
  {
    if s == [] then [] else [UpperAscii(s[0])] + s[1..]
  }
}
