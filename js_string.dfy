/**
 * The two case mappings of JavaScript strings the sources use, on ASCII
 * letters: `toLowerCase` and `toUpperCase`. Every other character is left as
 * it is.
 */
module JsString {
  /** `toLowerCase` on one character. */
  function Lower(c: char): (l: char)
    ensures 'A' <= c <= 'Z' ==> l as int == c as int + 32
    ensures !('A' <= c <= 'Z') ==> l == c
  {
    if 'A' <= c <= 'Z' then (c as int + 32) as char else c
  }

  /** `toUpperCase` on one character. */
  function Upper(c: char): (u: char)
    ensures 'a' <= c <= 'z' ==> u as int == c as int - 32
    ensures !('a' <= c <= 'z') ==> u == c
  {
    if 'a' <= c <= 'z' then (c as int - 32) as char else c
  }

  /** `toLowerCase` on a string: character by character. */
  function LowerCase(s: string): (l: string)
    ensures |l| == |s| && forall i :: 0 <= i < |s| ==> l[i] == Lower(s[i])
  {
    if s == [] then [] else [Lower(s[0])] + LowerCase(s[1..])
  }

  /** Upper-casing undoes lower-casing on upper-case letters, and the other way round. */
  lemma CaseRoundTrip(c: char)
    ensures 'A' <= c <= 'Z' ==> Upper(Lower(c)) == c
    ensures 'a' <= c <= 'z' ==> Lower(Upper(c)) == c
  {
  }
}
