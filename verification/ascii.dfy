/** ASCII case mapping: the parts of Go's `strings.ToUpper` and
    `strings.EqualFold` that the interceptors rely on. Letters outside ASCII
    are left as they are. */
module AsciiText {

  predicate IsLower(c: char) { 'a' <= c <= 'z' }

  predicate IsUpper(c: char) { 'A' <= c <= 'Z' }

  function UpperChar(c: char): (u: char)
    ensures !IsLower(u)
    ensures IsLower(c) ==> IsUpper(u) && u as int == c as int - 32
    ensures !IsLower(c) ==> u == c
  {
    if IsLower(c) then (c as int - 32) as char else c
  }

  function LowerChar(c: char): (l: char)
    ensures !IsUpper(l)
    ensures IsUpper(c) ==> IsLower(l) && l as int == c as int + 32
    ensures !IsUpper(c) ==> l == c
  {
    if IsUpper(c) then (c as int + 32) as char else c
  }

  /** `strings.ToUpper` on ASCII text. */
  function ToUpper(s: string): (r: string)
    ensures |r| == |s|
    ensures forall i :: 0 <= i < |r| ==> !IsLower(r[i])
    ensures EqualFold(r, s)
  {
    seq(|s|, i requires 0 <= i < |s| => UpperChar(s[i]))
  }

  /** `strings.EqualFold` on ASCII text: same length, and each pair of
      characters equal once letters are lowered. */
  predicate EqualFold(a: string, b: string): (r: bool)
    ensures r ==> |a| == |b|
    ensures a == b ==> r
  {
    |a| == |b| && forall i :: 0 <= i < |a| ==> LowerChar(a[i]) == LowerChar(b[i])
  }

  /** Comparing upper-cased forms (the maintenance check) and folding case
      (the bearer check) are the same relation. */
  lemma EqualFoldIffSameUpper(a: string, b: string)
    ensures EqualFold(a, b) <==> ToUpper(a) == ToUpper(b)
  {
  }

  /** A value matches an all-upper-case sentinel after `ToUpper` exactly
      when it is a case variant of that sentinel. */
  lemma UpperMatchesSentinelIffFolds(v: string, sentinel: string)
    requires forall i :: 0 <= i < |sentinel| ==> !IsLower(sentinel[i])
    ensures ToUpper(v) == sentinel <==> EqualFold(v, sentinel)
  {
  }
}
