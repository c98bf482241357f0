/** The output-path template of `Resize`: `{size}` and `{file}`, each replaced once. */
module Templates {
  import opened Strings
  import opened Paths

  const SizeToken: string := "{size}"
  const FileToken: string := "{file}"

  /** Neither placeholder occurs anywhere in `s`. */
  ghost predicate NoTokens(s: string) {
    (forall j :: !OccursAt(s, SizeToken, j)) && (forall j :: !OccursAt(s, FileToken, j))
  }

  /**
   * The directory for one size: the first `{size}` becomes the size name,
   * and then, in the text that results, the first `{file}` becomes the
   * file name.
   */
  function Expand(template: string, size: string, fileName: string): (r: string)
  {
    ReplaceFirst(ReplaceFirst(template, SizeToken, size), FileToken, fileName)
  }

  /** The path one size is saved to: the expanded directory joined with the file name. */
  function OutputPath(template: string, size: string, fileName: string): (r: string)
  {
    Join(Expand(template, size, fileName), fileName)
  }

  /** The file name, when it has no separator, is the last segment of the output path. */
  lemma OutputPathLastSegment(template: string, size: string, fileName: string)
    requires fileName != "" && Separator !in fileName
    ensures BaseName(OutputPath(template, size, fileName)) == fileName
    ensures HasSuffix(OutputPath(template, size, fileName), fileName)
  {
    JoinLastSegment(Expand(template, size, fileName), fileName);
  }

  /** The default template "res/drawable" has no placeholder: every size gets the same path. */
  lemma DefaultOutputPath(size: string, fileName: string)
    requires fileName != ""
    ensures OutputPath("res/drawable", size, fileName) == "res/drawable/" + fileName
  {
    AbsentCharNoOccurrence("res/drawable", SizeToken, 0);
    AbsentCharNoOccurrence("res/drawable", FileToken, 0);
    ExpandWithoutTokens("res/drawable", size, fileName);
  }

  /** A template with neither placeholder names the same directory for every size and file. */
  lemma ExpandWithoutTokens(template: string, size: string, fileName: string)
    requires NoTokens(template)
    ensures Expand(template, size, fileName) == template
  {
    ReplaceFirstNoMatch(template, SizeToken, size);
    ReplaceFirstNoMatch(template, FileToken, fileName);
  }

  /**
   * Only the first `{size}` is replaced, and then only the first `{file}` of
   * the resulting text: `a` is the text before the first `{size}`, `b` the
   * text after it, and `c` the text before the first `{file}` in the
   * substituted string.
   */
  lemma ExpandFirstOccurrences(a: string, b: string, size: string, c: string, d: string, fileName: string)
    requires forall j :: j < |a| ==> !OccursAt(a + SizeToken + b, SizeToken, j)
    requires a + size + b == c + FileToken + d
    requires forall j :: j < |c| ==> !OccursAt(c + FileToken + d, FileToken, j)
    ensures Expand(a + SizeToken + b, size, fileName) == c + fileName + d
  {
    ReplaceFirstSplit(a, SizeToken, b, size);
    ReplaceFirstSplit(c, FileToken, d, fileName);
  }

  /** A `{file}` brought in by the size name is itself replaced, since `{size}` goes first. */
  lemma SizeSubstitutedBeforeFile(fileName: string)
    ensures Expand(SizeToken, FileToken, fileName) == fileName
  {
    ReplaceFirstSplit("", SizeToken, "", FileToken);
    ReplaceFirstSplit("", FileToken, "", fileName);
  }

  /** Only the first of two `{size}` placeholders is replaced. */
  lemma SecondSizeTokenKept()
    ensures Expand("{size}/{size}", "hdpi", "a.png") == "hdpi/{size}"
  {
    ReplaceFirstSplit("", SizeToken, "/{size}", "hdpi");
    assert "" + SizeToken + "/{size}" == "{size}/{size}";
    var s := "hdpi/{size}";
    assert "" + "hdpi" + "/{size}" == s;
    AbsentCharNoOccurrence(s, FileToken, 1);
    ReplaceFirstNoMatch(s, FileToken, "a.png");
  }

  /** The template "out/{size}", size "hdpi" and file "photo.png" give "out/hdpi/photo.png". */
  lemma ExampleOutputPath()
    ensures OutputPath("out/{size}", "hdpi", "photo.png") == "out/hdpi/photo.png"
  {
    var t := "out/" + SizeToken + "";
    var e := "out/" + "hdpi" + "";
    FirstCharAbsentBefore("out/", SizeToken, "");
    ReplaceFirstSplit("out/", SizeToken, "", "hdpi");
    assert ReplaceFirst(t, SizeToken, "hdpi") == e;
    AbsentCharNoOccurrence(e, FileToken, 0);
    ReplaceFirstNoMatch(e, FileToken, "photo.png");
    assert Expand(t, "hdpi", "photo.png") == e;
    assert t == "out/{size}";
    assert e + [Separator] + "photo.png" == "out/hdpi/photo.png";
  }
}
