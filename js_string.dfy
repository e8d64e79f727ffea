/** The JavaScript string primitives the provisioning code relies on:
    `search` (first match or -1), `includes`, and `slice` with its
    clamping of out-of-range and negative bounds. Strings are sequences of
    UTF-16 code units in JavaScript; here they are `seq<char>`. */
module JsString {

  /** `pat` occurs in `s` starting at index `i`. */
  ghost predicate OccursAt(s: string, pat: string, i: int) {
    0 <= i && i + |pat| <= |s| && s[i..i + |pat|] == pat
  }

  /** `pat` is a contiguous substring of `s`. */
  ghost predicate Contains(s: string, pat: string) {
    exists i :: OccursAt(s, pat, i)
  }

  /** `pat` ends `s`. */
  ghost predicate EndsWith(s: string, pat: string) {
    |pat| <= |s| && s[|s| - |pat|..] == pat
  }

  /** The first occurrence of `pat` in `s` at or after `k`, or -1. */
  function IndexFrom(s: string, pat: string, k: nat): (r: int)
    requires k <= |s|
    ensures r == -1 || (k <= r && OccursAt(s, pat, r))
    ensures r == -1 ==> forall j :: k <= j ==> !OccursAt(s, pat, j)
    ensures r != -1 ==> forall j :: k <= j < r ==> !OccursAt(s, pat, j)
    decreases |s| - k
  {
    if k + |pat| > |s| then -1
    else if s[k..k + |pat|] == pat then k
    else IndexFrom(s, pat, k + 1)
  }

  /** `String.prototype.search(pat)` for a string pattern. JavaScript turns the
      pattern into a regular expression; every pattern this model passes is free
      of regular-expression metacharacters, so the search finds the first
      literal occurrence, or gives -1. */
  function Search(s: string, pat: string): (r: int)
    ensures -1 <= r <= |s|
    ensures r == -1 <==> !Contains(s, pat)
    ensures r != -1 ==> OccursAt(s, pat, r)
    ensures forall j :: 0 <= j < r ==> !OccursAt(s, pat, j)
  {
    IndexFrom(s, pat, 0)
  }

  /** `String.prototype.includes(pat)`. */
  function Includes(s: string, pat: string): (b: bool)
    ensures b <==> Contains(s, pat)
  {
    IndexFrom(s, pat, 0) != -1
  }

  /** The position a `slice` bound denotes: a negative bound counts back from
      the end, and the result is clamped to `[0, len]`. */
  function RelativeIndex(i: int, len: nat): (k: nat)
    ensures k <= len
    ensures 0 <= i <= len ==> k == i
    ensures i > len ==> k == len
    ensures i < 0 ==> k == if len + i < 0 then 0 else len + i
  {
    if i < 0 then (if len + i < 0 then 0 else len + i)
    else if i > len then len
    else i
  }

  /** `String.prototype.slice(start, end)`: the code units from the resolved
      start up to (not including) the resolved end, or "" when the resolved
      start is not before the resolved end. */
  function Slice(s: string, start: int, end: int): (r: string)
    ensures |r| <= |s|
    ensures exists i :: OccursAt(s, r, i)
    ensures 0 <= start <= end <= |s| ==> r == s[start..end]
    ensures 0 <= end <= start ==> r == ""
    ensures 0 <= start <= end ==> |r| <= end - start
    ensures 0 <= start <= end ==>
      r == s[(if start < |s| then start else |s|)..(if end < |s| then end else |s|)]
    ensures RelativeIndex(start, |s|) < RelativeIndex(end, |s|) ==>
      r == s[RelativeIndex(start, |s|)..RelativeIndex(end, |s|)]
    ensures RelativeIndex(end, |s|) <= RelativeIndex(start, |s|) ==> r == ""
  {
    var from := RelativeIndex(start, |s|);
    var to := RelativeIndex(end, |s|);
    if from < to then
      assert OccursAt(s, s[from..to], from);
      s[from..to]
    else
      assert OccursAt(s, "", 0);
      ""
  }

  /** `pat` cannot start where `s` lacks its first character. */
  lemma NoOccurrenceWithoutFirstChar(s: string, pat: string, lo: int, hi: int)
    requires |pat| > 0 && 0 <= lo <= hi <= |s|
    requires forall k :: lo <= k < hi ==> s[k] != pat[0]
    ensures forall k :: lo <= k < hi ==> !OccursAt(s, pat, k)
  {
    forall k | lo <= k < hi ensures !OccursAt(s, pat, k) {
      if k + |pat| <= |s| {
        assert s[k..k + |pat|][0] == s[k];
      }
    }
  }
}
