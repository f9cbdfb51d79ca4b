/** Case folding as far as the fallback classifier's word lists depend on
    it: the characters whose lower-case form under Python's `str.lower()` is
    ASCII are `A`..`Z` and the Kelvin sign U+212A, which becomes `k`. */
module Text {

  const KelvinSign: char := '\U{212A}'

  /** True when `c` is folded: an upper-case ASCII letter or the Kelvin sign. */
  predicate IsUpper(c: char) {
    'A' <= c <= 'Z' || c == KelvinSign
  }

  /** Lower-cases one character: `A`..`Z` become `a`..`z`, the Kelvin sign
      becomes `k`, everything else is kept. */
  function LowerChar(c: char): (r: char)
    ensures 'A' <= c <= 'Z' ==> 'a' <= r <= 'z' && r as int - c as int == 32
    ensures c == KelvinSign ==> r == 'k'
    ensures !IsUpper(c) ==> r == c
    ensures !IsUpper(r)
  {
    if 'A' <= c <= 'Z' then (c as int + 32) as char
    else if c == KelvinSign then 'k'
    else c
  }

  /** True when no character of `s` is folded by `LowerChar`. */
  predicate IsLower(s: string) {
    forall i :: 0 <= i < |s| ==> !IsUpper(s[i])
  }

  /** The lower-case form of `s`, character by character. */
  function Lower(s: string): (r: string)
    ensures |r| == |s|
    ensures forall i :: 0 <= i < |s| ==> r[i] == LowerChar(s[i])
    ensures IsLower(r)
  {
    seq(|s|, i requires 0 <= i < |s| => LowerChar(s[i]))
  }

  /** A string without upper-case letters is its own lower-case form. */
  lemma LowerOfLower(s: string)
    requires IsLower(s)
    ensures Lower(s) == s
  {
  }

  /** Lower-casing twice is lower-casing once. */
  lemma LowerIdempotent(s: string)
    ensures Lower(Lower(s)) == Lower(s)
  {
    LowerOfLower(Lower(s));
  }
}
