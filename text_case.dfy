/** Case folding of strategy names (Python's `str.lower`, restricted to ASCII). */
module TextCase {

  predicate IsUpper(c: char) { 'A' <= c <= 'Z' }

  predicate IsLowerLetter(c: char) { 'a' <= c <= 'z' }

  function LowerChar(c: char): char {
    if IsUpper(c) then (c as int + 32) as char else c
  }

  function UpperChar(c: char): char {
    if IsLowerLetter(c) then (c as int - 32) as char else c
  }

  /** `s` with every ASCII capital replaced by its small letter. */
  function Lower(s: string): (r: string)
    ensures |r| == |s|
    ensures forall i :: 0 <= i < |s| ==> r[i] == LowerChar(s[i])
    ensures forall i :: 0 <= i < |r| ==> !IsUpper(r[i])
  {
    if s == [] then [] else [LowerChar(s[0])] + Lower(s[1..])
  }

  /** A word of small ASCII letters only. */
  predicate IsLowerWord(w: string) {
    forall i :: 0 <= i < |w| ==> IsLowerLetter(w[i])
  }

  /** Reference definition: `s` spells `w` with each letter in either case. */
  predicate MatchesIgnoringCase(s: string, w: string) {
    |s| == |w| && forall i :: 0 <= i < |s| ==> s[i] == w[i] || s[i] == UpperChar(w[i])
  }

  /** The only characters that fold to a small letter `x` are `x` and its capital. */
  lemma LowerCharTo(c: char, x: char)
    requires IsLowerLetter(x)
    ensures LowerChar(c) == x <==> c == x || c == UpperChar(x)
  {
  }

  /** Lower-casing `s` gives the word `w` exactly when `s` spells `w`
      ignoring case. */
  lemma LowerEqualsWord(s: string, w: string)
    requires IsLowerWord(w)
    ensures Lower(s) == w <==> MatchesIgnoringCase(s, w)
  {
    if Lower(s) == w {
      forall i | 0 <= i < |s| ensures s[i] == w[i] || s[i] == UpperChar(w[i]) {
        LowerCharTo(s[i], w[i]);
      }
    }
    if MatchesIgnoringCase(s, w) {
      forall i | 0 <= i < |s| ensures Lower(s)[i] == w[i] {
        LowerCharTo(s[i], w[i]);
      }
    }
  }
}
