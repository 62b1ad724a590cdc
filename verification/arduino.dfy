/**
 * The parts of the Arduino core that the firmware's string handling relies on:
 * bytes, and the search and access operations of the Arduino `String` class.
 *
 * An Arduino `String` is a NUL-terminated byte buffer; its searches are built on
 * `strstr`/`strchr`.  The model works on NUL-free strings, where those C
 * functions behave exactly like the plain sequence searches below.
 */
module Arduino {

  /** An unsigned 8-bit value (`byte`, `uint8_t`). */
  type byte = b: int | 0 <= b < 256

  /** True when `pat` occurs in `s` starting at position `q`. */
  predicate OccursAt(s: string, pat: string, q: nat)
  {
    q + |pat| <= |s| && s[q..q + |pat|] == pat
  }

  /** First occurrence of `pat` in `s` at or after `q`, or -1. */
  function FindFrom(s: string, pat: string, q: nat): (r: int)
    ensures r == -1 || (q <= r && OccursAt(s, pat, r))
    ensures r == -1 ==> forall p :: q <= p ==> !OccursAt(s, pat, p)
    ensures r >= 0 ==> forall p :: q <= p < r ==> !OccursAt(s, pat, p)
    decreases |s| - q
  {
    if q + |pat| > |s| then -1
    else if s[q..q + |pat|] == pat then q
    else FindFrom(s, pat, q + 1)
  }

  /**
   * `String::indexOf(pattern, fromIndex)`: -1 when `fromIndex` is not a position
   * of the string, otherwise the first occurrence at or after `fromIndex`, or -1.
   */
  function IndexOf(s: string, pat: string, from: nat): (r: int)
    ensures r == -1 || (from <= r < |s| + 1 && OccursAt(s, pat, r))
    ensures r >= 0 ==> from < |s| && forall p :: from <= p < r ==> !OccursAt(s, pat, p)
    ensures r == -1 && from < |s| ==> forall p :: from <= p ==> !OccursAt(s, pat, p)
  {
    if from >= |s| then -1 else FindFrom(s, pat, from)
  }

  /** `String::charAt(i)`: the character at `i`, or NUL outside the string. */
  function CharAt(s: string, i: int): (c: char)
    ensures 0 <= i < |s| ==> c == s[i]
    ensures !(0 <= i < |s|) ==> c == '\0'
  {
    if 0 <= i < |s| then s[i] else '\0'
  }

  /** True when every character of `s` is a single byte, as in an Arduino `String`. */
  predicate IsByteString(s: string)
  {
    forall i :: 0 <= i < |s| ==> s[i] as int < 256
  }

  /** True when `c` is not in `s`. */
  predicate Lacks(s: string, c: char)
  {
    forall i :: 0 <= i < |s| ==> s[i] != c
  }
}
