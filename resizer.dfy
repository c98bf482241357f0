/**
 * `Resize`: validates the default size, takes the file name, decodes the
 * input once and saves one scaled copy per configured size, stopping at the
 * first error. Decoding and saving are oracles; the iteration order of the
 * sizes map is the parameter `order`.
 */
module Resizer {
  import opened Wrappers
  import opened Strings
  import opened Paths
  import opened Templates
  import opened Selectors
  import opened Configuration

  /** The errors `Resize` returns. */
  datatype Error =
    | ZeroScale(size: string)       // "in <size> scale must not be 0"
    | ReadFailed(message: string)   // reading or decoding the input
    | SaveFailed(message: string)   // creating the directory or file, or encoding

  /** The text of an error, as `main` prints it. */
  function Message(e: Error): (m: string)
    ensures e.ZeroScale? ==> |m| == |e.size| + 23 && m[..3] == "in " && m[3..|m| - 20] == e.size &&
                             HasSuffix(m, " scale must not be 0")
  {
    match e
    case ZeroScale(size) => "in " + size + " scale must not be 0"
    case ReadFailed(message) => message
    case SaveFailed(message) => message
  }

  /**
   * One call of `SaveImage`: the size, the path, and the image scaled by
   * `scale / reference`, the size's scale over the default size's.
   */
  datatype SaveCall = SaveCall(size: string, scale: real, reference: real, path: string)

  /**
   * What one `Resize` call did: whether it reached the decode, the saves it
   * attempted in order (a failing one included), and the error it returned.
   */
  datatype Outcome = Outcome(decoded: bool, saves: seq<SaveCall>, err: Option<Error>)

  /** `order` lists every key of the map exactly once, as `range` visits them. */
  predicate Enumerates(order: seq<string>, keys: set<string>) {
    && (forall i :: 0 <= i < |order| ==> order[i] in keys)
    && (forall k :: k in keys ==> k in order)
    && (forall i, j :: 0 <= i < j < |order| ==> order[i] != order[j])
  }

  /** The output path of each size for one file: `OutputPath` with the template and file name fixed. */
  function PathsFor(template: string, fileName: string): (pathOf: string -> string)
  {
    size => OutputPath(template, size, fileName)
  }

  /** The save `Resize` makes for `size`. */
  function SaveCallFor(sizes: map<string, real>, srcScale: real, pathOf: string -> string, size: string): (c: SaveCall)
  {
    SaveCall(size, Scale(sizes, size), srcScale, pathOf(size))
  }

  /**
   * The loop over the sizes from position `i` of `order`: the saves it
   * attempts and the error that ends it. The `k`-th save's outcome is
   * `save(k, path)`.
   */
  function SaveLoop(order: seq<string>, i: nat, sizes: map<string, real>, srcScale: real,
                    pathOf: string -> string, save: (nat, string) -> Option<string>): (r: (seq<SaveCall>, Option<Error>))
    requires i <= |order|
    decreases |order| - i
  {
    if i == |order| then ([], None)
    else if Scale(sizes, order[i]) == 0.0 then ([], Some(ZeroScale(order[i])))
    else
      var call := SaveCallFor(sizes, srcScale, pathOf, order[i]);
      match save(i, call.path)
      case Some(m) => ([call], Some(SaveFailed(m)))
      case None =>
        var rest := SaveLoop(order, i + 1, sizes, srcScale, pathOf, save);
        ([call] + rest.0, rest.1)
  }

  /** What `Resize(input, config)` does, given the decode outcome, the save oracle and the map order. */
  function ResizeOutcome(input: string, config: Config, order: seq<string>,
                         decodeErr: Option<string>, save: (nat, string) -> Option<string>): (out: Outcome)
  {
    var srcScale := Scale(config.sizes, config.defaultSize);
    if srcScale == 0.0 then Outcome(false, [], Some(ZeroScale(config.defaultSize)))
    else
      var fileName := BaseName(input);
      match decodeErr
      case Some(m) => Outcome(true, [], Some(ReadFailed(m)))
      case None =>
        var r := SaveLoop(order, 0, config.sizes, srcScale, PathsFor(config.output, fileName), save);
        Outcome(true, r.0, r.1)
  }

  /**
   * The `for size, scale := range config.Sizes` loop of `Resize`: returns on
   * the first zero scale and on the first failing save.
   */
  method RunSizes(order: seq<string>, sizes: map<string, real>, srcScale: real,
                  pathOf: string -> string, save: (nat, string) -> Option<string>)
    returns (saves: seq<SaveCall>, err: Option<Error>)
    requires forall i :: 0 <= i < |order| ==> order[i] in sizes
    ensures (saves, err) == SaveLoop(order, 0, sizes, srcScale, pathOf, save)
  {
    ghost var whole := SaveLoop(order, 0, sizes, srcScale, pathOf, save);
    saves := [];
    var i := 0;
    while i < |order|
      invariant 0 <= i <= |order|
      invariant saves + SaveLoop(order, i, sizes, srcScale, pathOf, save).0 == whole.0
      invariant SaveLoop(order, i, sizes, srcScale, pathOf, save).1 == whole.1
    {
      ghost var rest := SaveLoop(order, i, sizes, srcScale, pathOf, save);
      var size := order[i];
      var scale := sizes[size];
      if scale == 0.0 {
        assert saves + rest.0 == saves;
        return saves, Some(ZeroScale(size));
      }
      var call := SaveCall(size, scale, srcScale, pathOf(size));
      var saveErr := save(i, call.path);
      if saveErr.Some? {
        return saves + [call], Some(SaveFailed(saveErr.value));
      }
      ghost var next := SaveLoop(order, i + 1, sizes, srcScale, pathOf, save);
      assert saves + rest.0 == (saves + [call]) + next.0;
      saves := saves + [call];
      i := i + 1;
    }
    assert saves + [] == saves;
    return saves, None;
  }

  /** `Resize`: the default-size check, the file name, the decode, then the size loop. */
  method Resize(input: string, config: Config, order: seq<string>,
                decodeErr: Option<string>, save: (nat, string) -> Option<string>) returns (out: Outcome)
    requires Enumerates(order, config.sizes.Keys)
    ensures out == ResizeOutcome(input, config, order, decodeErr, save)
  {
    var srcScale := Scale(config.sizes, config.defaultSize);
    if srcScale == 0.0 {
      return Outcome(false, [], Some(ZeroScale(config.defaultSize)));
    }
    var fileName := BaseName(input);
    if decodeErr.Some? {
      return Outcome(true, [], Some(ReadFailed(decodeErr.value)));
    }
    var saves, err := RunSizes(order, config.sizes, srcScale, PathsFor(config.output, fileName), save);
    return Outcome(true, saves, err);
  }

  /** An enumeration of a set has one entry per element. */
  lemma {:induction false} EnumerationLength(order: seq<string>, keys: set<string>)
    requires Enumerates(order, keys)
    ensures |order| == |keys|
  {
    if order != [] {
      var rest := keys - {order[0]};
      forall k | k in rest ensures k in order[1..] {
        var i :| 0 <= i < |order| && order[i] == k;
        assert order[1..][i - 1] == k;
      }
      forall i, j | 0 <= i < j < |order[1..]| ensures order[1..][i] != order[1..][j] {
        assert order[1..][i] == order[i + 1] && order[1..][j] == order[j + 1];
      }
      forall i | 0 <= i < |order[1..]| ensures order[1..][i] in rest {
        assert order[1..][i] == order[i + 1] != order[0];
      }
      EnumerationLength(order[1..], rest);
    } else {
      assert forall k :: k in keys ==> k in order;
      assert keys == {};
    }
  }

  /**
   * The saves of the size loop from position `i` follow `order`, each for a
   * non-zero scale, and each succeeded except possibly the last, whose
   * failure is then the loop's error.
   */
  lemma {:induction false} SaveLoopCalls(order: seq<string>, i: nat, sizes: map<string, real>, srcScale: real,
                                         pathOf: string -> string, save: (nat, string) -> Option<string>)
    requires i <= |order|
    ensures var r := SaveLoop(order, i, sizes, srcScale, pathOf, save);
      && i + |r.0| <= |order|
      && forall j :: 0 <= j < |r.0| ==>
           && r.0[j] == SaveCallFor(sizes, srcScale, pathOf, order[i + j])
           && Scale(sizes, order[i + j]) != 0.0
           && (save(i + j, r.0[j].path).None? ||
               (j == |r.0| - 1 && r.1 == Some(SaveFailed(save(i + j, r.0[j].path).value))))
    decreases |order| - i
  {
    if i < |order| && Scale(sizes, order[i]) != 0.0 {
      var call := SaveCallFor(sizes, srcScale, pathOf, order[i]);
      if save(i, call.path).None? {
        SaveLoopCalls(order, i + 1, sizes, srcScale, pathOf, save);
        var rest := SaveLoop(order, i + 1, sizes, srcScale, pathOf, save);
        var r := SaveLoop(order, i, sizes, srcScale, pathOf, save);
        assert r == ([call] + rest.0, rest.1);
        forall j | 0 <= j < |r.0|
          ensures && r.0[j] == SaveCallFor(sizes, srcScale, pathOf, order[i + j])
                  && Scale(sizes, order[i + j]) != 0.0
                  && (save(i + j, r.0[j].path).None? ||
                      (j == |r.0| - 1 && r.1 == Some(SaveFailed(save(i + j, r.0[j].path).value))))
        {
          if j > 0 {
            assert r.0[j] == rest.0[j - 1];
            assert i + j == (i + 1) + (j - 1);
          }
        }
      }
    }
  }

  /**
   * How the size loop from position `i` ends: it runs to the end of `order`,
   * stops at the next size with a zero scale, or stops after a failing save.
   */
  lemma {:induction false} SaveLoopEnd(order: seq<string>, i: nat, sizes: map<string, real>, srcScale: real,
                                       pathOf: string -> string, save: (nat, string) -> Option<string>)
    requires i <= |order|
    ensures var r := SaveLoop(order, i, sizes, srcScale, pathOf, save);
      && (r.1.None? ==> i + |r.0| == |order|)
      && (r.1.Some? ==> r.1.value.ZeroScale? || r.1.value.SaveFailed?)
      && (r.1.Some? && r.1.value.ZeroScale? ==>
            i + |r.0| < |order| && r.1.value.size == order[i + |r.0|] && Scale(sizes, r.1.value.size) == 0.0)
      && (r.1.Some? && r.1.value.SaveFailed? ==>
            |r.0| > 0 && save(i + |r.0| - 1, r.0[|r.0| - 1].path) == Some(r.1.value.message))
    decreases |order| - i
  {
    if i < |order| && Scale(sizes, order[i]) != 0.0 {
      if save(i, pathOf(order[i])).None? {
        SaveLoopEnd(order, i + 1, sizes, srcScale, pathOf, save);
        var rest := SaveLoop(order, i + 1, sizes, srcScale, pathOf, save);
        var call := SaveCallFor(sizes, srcScale, pathOf, order[i]);
        assert SaveLoop(order, i, sizes, srcScale, pathOf, save) == ([call] + rest.0, rest.1);
        if rest.0 != [] {
          assert ([call] + rest.0)[|rest.0|] == rest.0[|rest.0| - 1];
        }
      }
    }
  }

  /** The size loop ends without error exactly when every remaining scale is non-zero and every save succeeds. */
  lemma {:induction false} SaveLoopSucceeds(order: seq<string>, i: nat, sizes: map<string, real>, srcScale: real,
                                            pathOf: string -> string, save: (nat, string) -> Option<string>)
    requires i <= |order|
    ensures SaveLoop(order, i, sizes, srcScale, pathOf, save).1.None? <==>
            forall j :: i <= j < |order| ==> Scale(sizes, order[j]) != 0.0 && save(j, pathOf(order[j])) == None
    decreases |order| - i
  {
    if i < |order| {
      SaveLoopSucceeds(order, i + 1, sizes, srcScale, pathOf, save);
    }
  }

  /**
   * A zero or missing scale for the default size fails before the decode,
   * with an error naming the default size, and saves nothing.
   */
  lemma ResizeDefaultZero(input: string, config: Config, order: seq<string>,
                          decodeErr: Option<string>, save: (nat, string) -> Option<string>)
    requires Scale(config.sizes, config.defaultSize) == 0.0
    ensures ResizeOutcome(input, config, order, decodeErr, save) ==
            Outcome(false, [], Some(ZeroScale(config.defaultSize)))
  {
  }

  /**
   * Every outcome: the saves attempted are for the first sizes of the
   * iteration order, each to the templated path for the input's file name,
   * scaled relative to the default size.
   */
  lemma ResizeSavesFollowOrder(input: string, config: Config, order: seq<string>,
                               decodeErr: Option<string>, save: (nat, string) -> Option<string>)
    ensures var out := ResizeOutcome(input, config, order, decodeErr, save);
      && |out.saves| <= |order|
      && (out.saves != [] ==> out.decoded && decodeErr.None?)
      && forall j :: 0 <= j < |out.saves| ==>
           && out.saves[j].size == order[j]
           && out.saves[j].path == OutputPath(config.output, order[j], BaseName(input))
           && out.saves[j].scale == Scale(config.sizes, order[j]) != 0.0
           && out.saves[j].reference == Scale(config.sizes, config.defaultSize) != 0.0
  {
    var srcScale := Scale(config.sizes, config.defaultSize);
    var out := ResizeOutcome(input, config, order, decodeErr, save);
    if srcScale != 0.0 && decodeErr.None? {
      var pathOf := PathsFor(config.output, BaseName(input));
      var r := SaveLoop(order, 0, config.sizes, srcScale, pathOf, save);
      SaveLoopCalls(order, 0, config.sizes, srcScale, pathOf, save);
      assert out.saves == r.0;
      forall j | 0 <= j < |out.saves|
        ensures && out.saves[j].size == order[j]
                && out.saves[j].path == OutputPath(config.output, order[j], BaseName(input))
                && out.saves[j].scale == Scale(config.sizes, order[j]) != 0.0
                && out.saves[j].reference == srcScale
      {
        assert out.saves[j] == SaveCallFor(config.sizes, srcScale, pathOf, order[0 + j]);
      }
    }
  }

  /**
   * A zero-scale error names a size whose scale is 0: the default size,
   * before the decode, or a size of the map reached by the loop.
   */
  lemma ResizeZeroScaleNamesSize(input: string, config: Config, order: seq<string>,
                                 decodeErr: Option<string>, save: (nat, string) -> Option<string>, size: string)
    requires Enumerates(order, config.sizes.Keys)
    requires ResizeOutcome(input, config, order, decodeErr, save).err == Some(ZeroScale(size))
    ensures Scale(config.sizes, size) == 0.0
    ensures var out := ResizeOutcome(input, config, order, decodeErr, save);
      if out.decoded then size in config.sizes && |out.saves| < |order| && size == order[|out.saves|]
      else size == config.defaultSize && out.saves == []
  {
    var srcScale := Scale(config.sizes, config.defaultSize);
    if srcScale != 0.0 {
      SaveLoopEnd(order, 0, config.sizes, srcScale, PathsFor(config.output, BaseName(input)), save);
    }
  }

  /**
   * A failing save ends the call: it is the last save attempted, every
   * earlier save succeeded, and the error is its error.
   */
  lemma ResizeStopsAtFirstFailedSave(input: string, config: Config, order: seq<string>,
                                     decodeErr: Option<string>, save: (nat, string) -> Option<string>, m: string)
    requires ResizeOutcome(input, config, order, decodeErr, save).err == Some(SaveFailed(m))
    ensures var out := ResizeOutcome(input, config, order, decodeErr, save);
      && out.saves != []
      && save(|out.saves| - 1, out.saves[|out.saves| - 1].path) == Some(m)
      && forall j :: 0 <= j < |out.saves| - 1 ==> save(j, out.saves[j].path) == None
  {
    var srcScale := Scale(config.sizes, config.defaultSize);
    var pathOf := PathsFor(config.output, BaseName(input));
    SaveLoopCalls(order, 0, config.sizes, srcScale, pathOf, save);
    SaveLoopEnd(order, 0, config.sizes, srcScale, pathOf, save);
    var r := SaveLoop(order, 0, config.sizes, srcScale, pathOf, save);
    assert ResizeOutcome(input, config, order, decodeErr, save) == Outcome(true, r.0, r.1);
    forall j | 0 <= j < |r.0| - 1 ensures save(j, r.0[j].path) == None {
      assert 0 + j == j;
    }
  }

  /**
   * `Resize` returns nil exactly when the default scale is non-zero, the
   * input decodes, no size has scale 0, and every save succeeds.
   */
  lemma ResizeSucceedsIff(input: string, config: Config, order: seq<string>,
                          decodeErr: Option<string>, save: (nat, string) -> Option<string>)
    requires Enumerates(order, config.sizes.Keys)
    ensures ResizeOutcome(input, config, order, decodeErr, save).err.None? <==>
            && Scale(config.sizes, config.defaultSize) != 0.0
            && decodeErr.None?
            && (forall k :: k in config.sizes ==> config.sizes[k] != 0.0)
            && (forall j :: 0 <= j < |order| ==> save(j, OutputPath(config.output, order[j], BaseName(input))) == None)
  {
    var srcScale := Scale(config.sizes, config.defaultSize);
    if srcScale != 0.0 && decodeErr.None? {
      var pathOf := PathsFor(config.output, BaseName(input));
      SaveLoopSucceeds(order, 0, config.sizes, srcScale, pathOf, save);
      if forall j :: 0 <= j < |order| ==> Scale(config.sizes, order[j]) != 0.0 {
        forall k | k in config.sizes ensures config.sizes[k] != 0.0 {
          var j :| 0 <= j < |order| && order[j] == k;
        }
      }
    }
  }

  /** Saves that follow an enumeration of a map's keys one for one cover every key once. */
  lemma SavesCoverKeys(saves: seq<SaveCall>, order: seq<string>, keys: set<string>)
    requires Enumerates(order, keys)
    requires |saves| == |order|
    requires forall j :: 0 <= j < |saves| ==> saves[j].size == order[j]
    ensures |saves| == |keys|
    ensures forall k :: k in keys ==> exists j :: 0 <= j < |saves| && saves[j].size == k
    ensures forall i, j :: 0 <= i < j < |saves| ==> saves[i].size != saves[j].size
  {
    EnumerationLength(order, keys);
    forall k | k in keys ensures exists j :: 0 <= j < |saves| && saves[j].size == k {
      var j :| 0 <= j < |order| && order[j] == k;
      assert saves[j].size == k;
    }
  }

  /**
   * On success there is exactly one save per entry of the sizes map, and a
   * file name without separator is the last segment of every output path.
   */
  lemma ResizeSuccessSavesEverySize(input: string, config: Config, order: seq<string>,
                                    decodeErr: Option<string>, save: (nat, string) -> Option<string>)
    requires Enumerates(order, config.sizes.Keys)
    requires ResizeOutcome(input, config, order, decodeErr, save).err.None?
    ensures var out := ResizeOutcome(input, config, order, decodeErr, save);
      && |out.saves| == |config.sizes|
      && (forall k :: k in config.sizes ==> exists j :: 0 <= j < |out.saves| && out.saves[j].size == k)
      && (forall i, j :: 0 <= i < j < |out.saves| ==> out.saves[i].size != out.saves[j].size)
      && (BaseName(input) != "" ==> forall j :: 0 <= j < |out.saves| ==> BaseName(out.saves[j].path) == BaseName(input))
  {
    var out := ResizeOutcome(input, config, order, decodeErr, save);
    var srcScale := Scale(config.sizes, config.defaultSize);
    SaveLoopEnd(order, 0, config.sizes, srcScale, PathsFor(config.output, BaseName(input)), save);
    ResizeSavesFollowOrder(input, config, order, decodeErr, save);
    SavesCoverKeys(out.saves, order, config.sizes.Keys);
    if BaseName(input) != "" {
      forall j | 0 <= j < |out.saves| ensures BaseName(out.saves[j].path) == BaseName(input) {
        OutputPathLastSegment(config.output, order[j], BaseName(input));
      }
    }
  }

  /** The output path of an image input, for any template and size, selects the input's format. */
  lemma ImageOutputPathFormat(input: string, template: string, size: string)
    requires IsImagePath(input)
    ensures FormatFor(OutputPath(template, size, BaseName(input))) ==
            if HasSuffix(input, ".jpg") then Jpeg(JpegQuality) else Png
  {
    var ext := if HasSuffix(input, ".jpg") then ".jpg" else ".png";
    var fileName := BaseName(input);
    var path := OutputPath(template, size, fileName);
    BaseNameKeepsSuffix(input, ext);
    OutputPathLastSegment(template, size, fileName);
    HasSuffixTransitive(path, fileName, ext);
    ImageNameSelectsFormat(path);
    if ext == ".png" {
      assert path[|path| - 4..] == ".png";
      assert !HasSuffix(path, ".jpg");
    }
  }

  /**
   * For an input that passes `IsImagePath`, every output path ends in the
   * input's extension, so `Encode` always selects an encoder: JPEG at
   * quality 100 for ".jpg", PNG for ".png".
   */
  lemma ImageInputSelectsFormat(input: string, config: Config, order: seq<string>,
                                decodeErr: Option<string>, save: (nat, string) -> Option<string>)
    requires IsImagePath(input)
    ensures var out := ResizeOutcome(input, config, order, decodeErr, save);
      forall j :: 0 <= j < |out.saves| ==>
        FormatFor(out.saves[j].path) == if HasSuffix(input, ".jpg") then Jpeg(JpegQuality) else Png
  {
    var out := ResizeOutcome(input, config, order, decodeErr, save);
    ResizeSavesFollowOrder(input, config, order, decodeErr, save);
    forall j | 0 <= j < |out.saves|
      ensures FormatFor(out.saves[j].path) == if HasSuffix(input, ".jpg") then Jpeg(JpegQuality) else Png
    {
      ImageOutputPathFormat(input, config.output, order[j]);
    }
  }

  /** An image saved for the default size itself is scaled by exactly 1: its scale is the reference. */
  lemma DefaultSizeFactorOne(input: string, config: Config, order: seq<string>,
                             decodeErr: Option<string>, save: (nat, string) -> Option<string>, j: nat)
    requires var out := ResizeOutcome(input, config, order, decodeErr, save);
      j < |out.saves| && out.saves[j].size == config.defaultSize
    ensures var call := ResizeOutcome(input, config, order, decodeErr, save).saves[j];
      call.scale == call.reference != 0.0
  {
    ResizeSavesFollowOrder(input, config, order, decodeErr, save);
  }

  /**
   * With the built-in defaults no zero-scale error can occur, and since
   * "res/drawable" holds no placeholder, every size is saved to the same
   * path "res/drawable/<file name>", each save replacing the previous one.
   */
  lemma DefaultConfigResize(input: string, args: seq<string>, order: seq<string>,
                            decodeErr: Option<string>, save: (nat, string) -> Option<string>)
    requires Enumerates(order, DefaultSizes.Keys)
    requires BaseName(input) != ""
    ensures var out := ResizeOutcome(input, DefaultConfig(args), order, decodeErr, save);
      && (out.err.Some? ==> !out.err.value.ZeroScale?)
      && forall j :: 0 <= j < |out.saves| ==> out.saves[j].path == "res/drawable/" + BaseName(input)
  {
    var config := DefaultConfig(args);
    var out := ResizeOutcome(input, config, order, decodeErr, save);
    DefaultConfigScales(args);
    if out.err.Some? && out.err.value.ZeroScale? {
      ResizeZeroScaleNamesSize(input, config, order, decodeErr, save, out.err.value.size);
    }
    ResizeSavesFollowOrder(input, config, order, decodeErr, save);
    forall j | 0 <= j < |out.saves| ensures out.saves[j].path == "res/drawable/" + BaseName(input) {
      DefaultOutputPath(order[j], BaseName(input));
    }
  }
}
