/**
 * Path handling: the base-name slice `Resize` takes from its input and the
 * `filepath.Join` that builds each output path.
 */
module Paths {
  import opened Strings

  /** `filepath.Separator` on the Unix build. */
  const Separator: char := '/'

  /** `strings.LastIndexFunc(s, r == c)`: the last index holding `c`, or -1. */
  function LastIndex(s: string, c: char): (r: int)
    ensures -1 <= r < |s|
    ensures r >= 0 ==> s[r] == c
    ensures forall j :: r < j < |s| ==> s[j] != c
  {
    if |s| == 0 then -1
    else if s[|s| - 1] == c then |s| - 1
    else LastIndex(s[..|s| - 1], c)
  }

  /**
   * The file name `Resize` extracts: the text after the last separator.
   * `LastIndex` is -1 when there is none, so the slice starts at 0 and the
   * whole input is kept.
   */
  function BaseName(input: string): (r: string)
    ensures HasSuffix(input, r)
    ensures Separator !in r
    ensures |r| == |input| || input[|input| - |r| - 1] == Separator
    ensures Separator !in input ==> r == input
  {
    input[LastIndex(input, Separator) + 1..]
  }

  /**
   * `filepath.Join(dir, name)` without its cleaning step: empty elements are
   * dropped and the rest are joined by one separator.
   */
  function Join(dir: string, name: string): (r: string)
  {
    if dir == "" then name
    else if name == "" then dir
    else dir + [Separator] + name
  }

  /** Joining keeps a non-empty, separator-free name as the last segment and the suffix. */
  lemma JoinLastSegment(dir: string, name: string)
    requires name != "" && Separator !in name
    ensures BaseName(Join(dir, name)) == name
    ensures HasSuffix(Join(dir, name), name)
  {
    if dir != "" {
      BaseNameAfterSeparator(dir, name);
    }
  }

  /** Whatever precedes the last separator, the base name is what follows it. */
  lemma BaseNameAfterSeparator(dir: string, name: string)
    requires Separator !in name
    ensures BaseName(dir + [Separator] + name) == name
  {
    var s := dir + [Separator] + name;
    var r := BaseName(s);
    assert s[|dir|] == Separator;
    assert forall j :: |dir| < j < |s| ==> s[j] == name[j - |dir| - 1];
    assert |r| == |name|;
    assert r == s[|s| - |name|..] == name;
  }

  /** The base name of a path that ends in a separator-free `t` ends in `t`. */
  lemma BaseNameKeepsSuffix(input: string, t: string)
    requires HasSuffix(input, t) && Separator !in t
    ensures HasSuffix(BaseName(input), t)
  {
    var r := BaseName(input);
    assert input[|input| - |t|..] == r[|r| - |t|..];
  }
}
