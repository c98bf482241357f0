/**
 * The few operations of Go's `strings` package that the program relies on,
 * over `seq<char>`. Go indexes strings by byte; every pattern used here is
 * ASCII, so the substrings these functions produce are the same.
 */
module Strings {

  /** `strings.HasSuffix(s, suffix)`. */
  predicate HasSuffix(s: string, suffix: string) {
    |suffix| <= |s| && s[|s| - |suffix|..] == suffix
  }

  /** `pat` occurs in `s` starting at index `i`. */
  predicate OccursAt(s: string, pat: string, i: int) {
    0 <= i && i + |pat| <= |s| && s[i..i + |pat|] == pat
  }

  /** The first occurrence of `pat` in `s` at or after `i`, or -1. */
  function IndexFrom(s: string, pat: string, i: nat): (r: int)
    ensures r == -1 || (i <= r && OccursAt(s, pat, r))
    ensures forall j :: i <= j && (r == -1 || j < r) ==> !OccursAt(s, pat, j)
    decreases |s| - i
  {
    if i + |pat| > |s| then -1
    else if s[i..i + |pat|] == pat then i
    else IndexFrom(s, pat, i + 1)
  }

  /** `strings.Index(s, pat)`: the first occurrence of `pat`, or -1 when there is none. */
  function IndexOf(s: string, pat: string): (r: int)
    ensures r == -1 <==> forall j :: !OccursAt(s, pat, j)
    ensures r != -1 ==> OccursAt(s, pat, r) && forall j :: j < r ==> !OccursAt(s, pat, j)
  {
    IndexFrom(s, pat, 0)
  }

  /**
   * `strings.Replace(s, pat, rep, 1)`: the first occurrence of `pat` is
   * replaced by `rep`; an empty `pat` matches at the start, as in Go.
   */
  function ReplaceFirst(s: string, pat: string, rep: string): (r: string)
  {
    var i := IndexOf(s, pat);
    if i < 0 then s else s[..i] + rep + s[i + |pat|..]
  }

  /** Without an occurrence of `pat` nothing is replaced. */
  lemma ReplaceFirstNoMatch(s: string, pat: string, rep: string)
    requires forall j :: !OccursAt(s, pat, j)
    ensures ReplaceFirst(s, pat, rep) == s
  {
  }

  /** With an occurrence, exactly the first one is replaced. */
  lemma ReplaceFirstMatch(s: string, pat: string, rep: string)
    requires exists j :: OccursAt(s, pat, j)
    ensures exists i :: OccursAt(s, pat, i) && (forall j :: j < i ==> !OccursAt(s, pat, j)) &&
                        ReplaceFirst(s, pat, rep) == s[..i] + rep + s[i + |pat|..]
  {
    assert OccursAt(s, pat, IndexOf(s, pat));
  }

  /**
   * Replacing in `a + pat + b`, where `pat` first occurs right after `a`,
   * gives `a + rep + b`: the text after the first match, later occurrences
   * included, is left in place.
   */
  lemma ReplaceFirstSplit(a: string, pat: string, b: string, rep: string)
    requires forall j :: j < |a| ==> !OccursAt(a + pat + b, pat, j)
    ensures ReplaceFirst(a + pat + b, pat, rep) == a + rep + b
  {
    var s := a + pat + b;
    assert s[|a|..|a| + |pat|] == pat;
    assert OccursAt(s, pat, |a|);
    var i := IndexOf(s, pat);
    assert i == |a|;
    assert s[..i] == a;
    assert s[i + |pat|..] == b;
  }

  /** A suffix test passes on to any string that ends with the tested one. */
  lemma HasSuffixTransitive(s: string, t: string, u: string)
    requires HasSuffix(s, t) && HasSuffix(t, u)
    ensures HasSuffix(s, u)
  {
    assert s[|s| - |u|..] == t[|t| - |u|..];
  }

  /** A pattern holding a character that `s` lacks does not occur in `s`. */
  lemma AbsentCharNoOccurrence(s: string, pat: string, k: nat)
    requires k < |pat| && pat[k] !in s
    ensures forall j :: !OccursAt(s, pat, j)
  {
  }

  /** When `a` lacks the first character of `pat`, no occurrence of `pat` in `a + pat + b` starts inside `a`. */
  lemma FirstCharAbsentBefore(a: string, pat: string, b: string)
    requires |pat| > 0 && pat[0] !in a
    ensures forall j :: j < |a| ==> !OccursAt(a + pat + b, pat, j)
  {
    var s := a + pat + b;
    forall j | 0 <= j < |a| ensures !OccursAt(s, pat, j) {
      assert s[j] == a[j];
      if j + |pat| <= |s| {
        assert s[j..j + |pat|][0] == s[j];
      }
    }
  }
}
