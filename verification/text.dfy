/** Substring facts over `string` (= `seq<char>`): occurrence at an index,
    containment, and the first occurrence at or after a position. */
module Text {
  import opened Common

  /** `pat` occurs in `s` starting at index `i`. */
  predicate OccursAt(s: string, pat: string, i: int)
  {
    0 <= i && i + |pat| <= |s| && s[i..i + |pat|] == pat
  }

  /** `pat` occurs somewhere in `s`. */
  predicate Contains(s: string, pat: string)
  {
    exists i :: 0 <= i <= |s| && OccursAt(s, pat, i)
  }

  /** The first index at or after `from` where `pat` occurs in `s`, or `None`
      when there is no such index. */
  function IndexFrom(s: string, pat: string, from: nat): (r: Option<nat>)
    ensures r.Some? ==> from <= r.value && OccursAt(s, pat, r.value)
    ensures r.Some? ==> forall j :: from <= j < r.value ==> !OccursAt(s, pat, j)
    ensures r.None? ==> forall j :: from <= j ==> !OccursAt(s, pat, j)
    decreases |s| - from
  {
    if from + |pat| > |s| then None
    else if s[from..from + |pat|] == pat then Some(from)
    else IndexFrom(s, pat, from + 1)
  }

  /** An occurrence of `pat` inside a slice of `s` is an occurrence in `s`,
      shifted by the slice's start. */
  lemma OccursInSlice(s: string, lo: int, hi: int, pat: string, k: int)
    requires 0 <= lo <= hi <= |s|
    requires OccursAt(s[lo..hi], pat, k)
    ensures OccursAt(s, pat, lo + k)
  {
    var a, b := s[lo..hi][k..k + |pat|], s[lo + k..lo + k + |pat|];
    assert |a| == |b|;
    forall j | 0 <= j < |a|
      ensures a[j] == b[j]
    {
      assert a[j] == s[lo..hi][k + j] == s[lo + k + j];
    }
    assert a == b;
  }
}
