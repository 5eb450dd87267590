/**
 * The string search the generator relies on: `String.prototype.replace`
 * with a string (not a regular expression) pattern, which replaces only the
 * FIRST occurrence of the pattern and leaves the string alone when the
 * pattern does not occur.
 */
module Strings {
  import opened Wrappers

  /** `pat` occurs in `s` starting at index `i`. */
  predicate OccursAt(s: string, pat: string, i: nat)
  {
    i + |pat| <= |s| && s[i..i + |pat|] == pat
  }

  /** `pat` occurs somewhere in `s`. */
  predicate Contains(s: string, pat: string)
  {
    exists i: nat | i <= |s| :: OccursAt(s, pat, i)
  }

  /** Occurrences in `s` from index 1 on are the occurrences in `s[1..]`, shifted by one. */
  lemma OccursShift(s: string, pat: string)
    requires |s| > 0
    ensures forall i: nat :: 1 <= i ==> (OccursAt(s, pat, i) <==> OccursAt(s[1..], pat, i - 1))
  {
    forall i: nat | 1 <= i
      ensures OccursAt(s, pat, i) <==> OccursAt(s[1..], pat, i - 1)
    {
      if i + |pat| <= |s| {
        assert s[1..][i - 1..i - 1 + |pat|] == s[i..i + |pat|];
      }
    }
  }

  /** The index of the first occurrence of `pat` in `s`, as `indexOf` finds it. */
  function IndexOf(s: string, pat: string): (r: Option<nat>)
    ensures r.Some? ==> OccursAt(s, pat, r.value)
    ensures r.Some? ==> forall j: nat :: j < r.value ==> !OccursAt(s, pat, j)
    ensures r.None? <==> !Contains(s, pat)
    decreases |s|
  {
    if |s| < |pat| then None
    else if s[..|pat|] == pat then Some(0)
    else
      var rest := IndexOf(s[1..], pat);
      OccursShift(s, pat);
      if rest.None? then None else Some(rest.value + 1)
  }

  /** `s` with its first occurrence of `pat` replaced by `rep`; `s` itself when `pat` is absent. */
  function ReplaceFirst(s: string, pat: string, rep: string): (r: string)
    ensures !Contains(s, pat) ==> r == s
    ensures Contains(s, pat) ==> |r| == |s| - |pat| + |rep|
  {
    match IndexOf(s, pat)
    case None => s
    case Some(i) => s[..i] + rep + s[i + |pat|..]
  }

  /**
   * Reference characterisation of ReplaceFirst: when `s` splits as
   * `pre + pat + post` and `pat` does not start anywhere inside `pre`, the
   * result is `pre + rep + post`.
   */
  lemma ReplaceFirstAt(s: string, pat: string, rep: string, pre: string, post: string)
    requires s == pre + pat + post
    requires forall j: nat :: j < |pre| ==> !OccursAt(s, pat, j)
    ensures ReplaceFirst(s, pat, rep) == pre + rep + post
  {
    assert s[|pre|..|pre| + |pat|] == pat;
    assert OccursAt(s, pat, |pre|);
    var i := IndexOf(s, pat).value;
    assert i == |pre|;
    assert s[..i] == pre;
    assert s[i + |pat|..] == post;
  }

  /**
   * Only the first occurrence is replaced: an occurrence of `pat` that
   * starts after the first one ends is still in the result, shifted by the
   * difference in length between `rep` and `pat`.
   */
  lemma ReplaceFirstKeepsLater(s: string, pat: string, rep: string, j: nat)
    requires OccursAt(s, pat, j)
    requires j >= IndexOf(s, pat).value + |pat|
    ensures OccursAt(ReplaceFirst(s, pat, rep), pat, j - |pat| + |rep|)
  {
    var i := IndexOf(s, pat).value;
    var r := ReplaceFirst(s, pat, rep);
    assert r == s[..i] + rep + s[i + |pat|..];
    var k := j - |pat| + |rep|;
    assert r[k..k + |pat|] == s[j..j + |pat|];
  }
}
