/** ASCII case mapping on strings, used to relate the W3C header names of a
    trace-context carrier to their upper-case environment-variable names. */
module Ascii {

  predicate IsUpperLetter(c: char) { 'A' <= c <= 'Z' }

  predicate IsLowerLetter(c: char) { 'a' <= c <= 'z' }

  /** True when `s` has no lower-case ASCII letter (an environment-variable name is such a string). */
  predicate NoLowerLetters(s: string) {
    forall i :: 0 <= i < |s| ==> !IsLowerLetter(s[i])
  }

  function UpperChar(c: char): (u: char)
    ensures IsLowerLetter(c) ==> IsUpperLetter(u) && u as int == c as int - 32
    ensures !IsLowerLetter(c) ==> u == c
    ensures !IsLowerLetter(u)
  {
    if IsLowerLetter(c) then (c as int - 32) as char else c
  }

  function LowerChar(c: char): (l: char)
    ensures IsUpperLetter(c) ==> IsLowerLetter(l) && l as int == c as int + 32
    ensures !IsUpperLetter(c) ==> l == c
    ensures !IsUpperLetter(l)
  {
    if IsUpperLetter(c) then (c as int + 32) as char else c
  }

  /** Upper-cases every ASCII letter of `s`, leaving every other character alone. */
  function Upper(s: string): (upper: string)
    ensures |upper| == |s| && NoLowerLetters(upper)
  {
    seq(|s|, i requires 0 <= i < |s| => UpperChar(s[i]))
  }

  /** Lower-cases every ASCII letter of `s`, leaving every other character alone. */
  function Lower(s: string): (lower: string)
    ensures |lower| == |s|
  {
    seq(|s|, i requires 0 <= i < |s| => LowerChar(s[i]))
  }

  /** Upper-casing undoes lower-casing on a string that had no lower-case letter. */
  lemma UpperUndoesLower(s: string)
    requires NoLowerLetters(s)
    ensures Upper(Lower(s)) == s
  {
  }
}
