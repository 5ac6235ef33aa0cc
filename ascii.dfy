/**
  ASCII string helpers standing in for the two standard-library string calls the
  command-line front end relies on: `str::repeat` (to draw the banner) and
  `str::to_lowercase` (to match flags without regard to case).
 */
module Ascii {

  /** `c` is an ASCII upper-case letter. */
  predicate IsUpper(c: char) {
    'A' <= c <= 'Z'
  }

  /** Lower-cases one ASCII letter and leaves every other character alone. */
  function LowerChar(c: char): char {
    if IsUpper(c) then (c as int + 32) as char else c
  }

  /** `n` copies of `c`: `str::repeat` applied to a one-character string. */
  function Repeat(c: char, n: nat): (r: string)
    ensures |r| == n
    ensures forall i :: 0 <= i < n ==> r[i] == c
  {
    if n == 0 then [] else [c] + Repeat(c, n - 1)
  }

  /**
    ASCII lower-casing of a string, character by character. The result has
    no upper-case letter left, and each of its characters is either the
    input's character unchanged or the lower-case form of an upper-case one.
   */
  function ToLower(s: string): (r: string)
    ensures |r| == |s|
    ensures forall i :: 0 <= i < |s| ==> !IsUpper(r[i])
    ensures forall i :: 0 <= i < |s| ==>
      r[i] == s[i] || (IsUpper(s[i]) && r[i] as int == s[i] as int + 32)
  {
    if s == [] then [] else [LowerChar(s[0])] + ToLower(s[1..])
  }

  /** Two characters are the same up to ASCII case. */
  predicate SameIgnoringCase(a: char, b: char) {
    || a == b
    || (IsUpper(a) && b as int == a as int + 32)
    || (IsUpper(b) && a as int == b as int + 32)
  }

  /** Two strings are the same up to ASCII case, position by position. */
  predicate EqualIgnoringCase(s: string, t: string) {
    |s| == |t| && forall i :: 0 <= i < |s| ==> SameIgnoringCase(s[i], t[i])
  }

  /** A string without upper-case letters, such as a flag spelled in lower case. */
  predicate IsLowerCase(s: string) {
    forall i :: 0 <= i < |s| ==> !IsUpper(s[i])
  }

  lemma ToLowerAt(s: string, i: int)
    requires 0 <= i < |s|
    ensures ToLower(s)[i] == LowerChar(s[i])
  {
  }

  lemma LowerCharAgrees(a: char, b: char)
    ensures LowerChar(a) == LowerChar(b) <==> SameIgnoringCase(a, b)
  {
  }

  /** Lower-casing identifies exactly the strings that differ only in ASCII case. */
  lemma ToLowerEqualIff(s: string, t: string)
    ensures ToLower(s) == ToLower(t) <==> EqualIgnoringCase(s, t)
  {
    if ToLower(s) == ToLower(t) {
      forall i | 0 <= i < |s| ensures SameIgnoringCase(s[i], t[i]) {
        ToLowerAt(s, i);
        ToLowerAt(t, i);
        LowerCharAgrees(s[i], t[i]);
      }
    }
    if EqualIgnoringCase(s, t) {
      forall i | 0 <= i < |s| ensures ToLower(s)[i] == ToLower(t)[i] {
        ToLowerAt(s, i);
        ToLowerAt(t, i);
        LowerCharAgrees(s[i], t[i]);
      }
    }
  }

  /**
    Comparing the lower-cased form of `s` with a pattern written in lower case
    accepts exactly the spellings of that pattern in any mix of cases.
   */
  lemma ToLowerMatchesIff(s: string, pattern: string)
    requires IsLowerCase(pattern)
    ensures ToLower(s) == pattern <==> EqualIgnoringCase(s, pattern)
  {
    assert ToLower(pattern) == pattern by {
      forall i | 0 <= i < |pattern| ensures ToLower(pattern)[i] == pattern[i] {
        ToLowerAt(pattern, i);
      }
    }
    ToLowerEqualIff(s, pattern);
  }
}
