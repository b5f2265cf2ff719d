/**
 * The JavaScript string methods the relay-script scan relies on:
 * `indexOf`, `lastIndexOf`, `includes` and `substring`. Positions count
 * characters of a Dafny string.
 */
module JsString {

  /** `pat` occurs in `s` starting at position `k`. */
  predicate OccursAt(s: string, pat: string, k: int) {
    0 <= k && k + |pat| <= |s| && s[k..k + |pat|] == pat
  }

  function IndexOfFrom(s: string, pat: string, from: nat): (r: int)
    requires from <= |s|
    decreases |s| - from
    ensures r == -1 || (from <= r && OccursAt(s, pat, r))
    ensures forall k :: from <= k && (r == -1 || k < r) ==> !OccursAt(s, pat, k)
  {
    if from + |pat| > |s| then -1
    else if s[from..from + |pat|] == pat then from
    else IndexOfFrom(s, pat, from + 1)
  }

  /** `s.indexOf(pat)`: the first position where `pat` occurs, or -1. */
  function IndexOf(s: string, pat: string): (r: int)
    ensures r == -1 <==> forall k :: !OccursAt(s, pat, k)
    ensures r != -1 ==> OccursAt(s, pat, r) && forall k :: k < r ==> !OccursAt(s, pat, k)
  {
    IndexOfFrom(s, pat, 0)
  }

  function LastIndexOfUpTo(s: string, pat: string, upto: int): (r: int)
    requires -1 <= upto
    decreases upto + 1
    ensures r == -1 || (r <= upto && OccursAt(s, pat, r))
    ensures forall k :: r < k <= upto ==> !OccursAt(s, pat, k)
  {
    if upto < 0 then -1
    else if OccursAt(s, pat, upto) then upto
    else LastIndexOfUpTo(s, pat, upto - 1)
  }

  /** `s.lastIndexOf(pat)`: the last position where `pat` occurs, or -1. */
  function LastIndexOf(s: string, pat: string): (r: int)
    ensures r == -1 <==> forall k :: !OccursAt(s, pat, k)
    ensures r != -1 ==> OccursAt(s, pat, r) && forall k :: r < k ==> !OccursAt(s, pat, k)
  {
    if |pat| > |s| then -1 else LastIndexOfUpTo(s, pat, |s| - |pat|)
  }

  /** `s.includes(pat)`. */
  function Includes(s: string, pat: string): (b: bool)
    ensures b <==> exists k :: OccursAt(s, pat, k)
  {
    IndexOf(s, pat) != -1
  }

  /** `s.substring(start, end)`: both bounds are clamped to the string, and
      they are swapped when the first exceeds the second. */
  function Substring(s: string, start: int, end: int): (r: string)
    ensures 0 <= start <= end <= |s| ==> r == s[start..end]
    ensures 0 <= end <= start <= |s| ==> r == s[end..start]
    ensures |r| <= |s|
  {
    var lo := if start < 0 then 0 else if start > |s| then |s| else start;
    var hi := if end < 0 then 0 else if end > |s| then |s| else end;
    if lo <= hi then s[lo..hi] else s[hi..lo]
  }
}
