/**
 * The part of Python's `str` behaviour the translators rely on: `str.lower()`.
 * Only the ASCII letters A-Z are mapped; every other character is left as it is.
 */
module PyString {

  predicate IsUpper(c: char) {
    'A' <= c <= 'Z'
  }

  /** A string in which no ASCII upper-case letter occurs. */
  predicate IsLowercase(s: string) {
    forall i :: 0 <= i < |s| ==> !IsUpper(s[i])
  }

  function LowerChar(c: char): (d: char)
    ensures !IsUpper(d)
    ensures IsUpper(c) ==> d as int == c as int + 32
    ensures !IsUpper(c) ==> d == c
  {
    if IsUpper(c) then (c as int + 32) as char else c
  }

  /** `s.lower()`: every upper-case letter replaced by its lower-case form, position by position. */
  function Lower(s: string): (r: string)
    ensures |r| == |s|
    ensures forall i :: 0 <= i < |s| ==> r[i] == LowerChar(s[i])
  {
    if s == [] then [] else [LowerChar(s[0])] + Lower(s[1..])
  }

  /** The result of `lower()` contains no upper-case letter. */
  lemma LowerIsLowercase(s: string)
    ensures IsLowercase(Lower(s))
  {
  }

  /** `lower()` leaves an already lower-case string unchanged. */
  lemma LowerFixesLowercase(s: string)
    requires IsLowercase(s)
    ensures Lower(s) == s
  {
  }

  /** Lowering twice is lowering once. */
  lemma LowerIdempotent(s: string)
    ensures Lower(Lower(s)) == Lower(s)
  {
    LowerIsLowercase(s);
    LowerFixesLowercase(Lower(s));
  }
}
