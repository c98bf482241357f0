/**
 * The name-based selectors: which argument is the configuration file, which
 * inputs are images, and which encoder an output file name picks.
 */
module Selectors {
  import opened Wrappers
  import opened Strings

  const ConfigSuffix: string := ".config"

  /** The first argument ending in ".config", if any. */
  function FirstConfigArg(args: seq<string>): (r: Option<string>)
  {
    if args == [] then None
    else if HasSuffix(args[0], ConfigSuffix) then Some(args[0])
    else FirstConfigArg(args[1..])
  }

  /**
   * `FirstConfigArg` is empty exactly when no argument ends in ".config";
   * otherwise it is an argument that does, and no earlier one does.
   */
  lemma {:induction false} FirstConfigArgIsFirst(args: seq<string>)
    ensures FirstConfigArg(args).None? <==> forall i :: 0 <= i < |args| ==> !HasSuffix(args[i], ConfigSuffix)
    ensures FirstConfigArg(args).Some? ==>
              exists i :: 0 <= i < |args| && args[i] == FirstConfigArg(args).value &&
                          HasSuffix(args[i], ConfigSuffix) &&
                          forall j :: 0 <= j < i ==> !HasSuffix(args[j], ConfigSuffix)
  {
    if args != [] && !HasSuffix(args[0], ConfigSuffix) {
      FirstConfigArgIsFirst(args[1..]);
      if FirstConfigArg(args).Some? {
        var i :| 0 <= i < |args| - 1 && args[1..][i] == FirstConfigArg(args).value &&
                 HasSuffix(args[1..][i], ConfigSuffix) &&
                 forall j :: 0 <= j < i ==> !HasSuffix(args[1..][j], ConfigSuffix);
        assert args[i + 1] == args[1..][i];
        forall j | 0 <= j < i + 1 ensures !HasSuffix(args[j], ConfigSuffix) {
          if j > 0 { assert args[j] == args[1..][j - 1]; }
        }
      } else {
        forall i | 0 <= i < |args| ensures !HasSuffix(args[i], ConfigSuffix) {
          if i > 0 { assert args[i] == args[1..][i - 1]; }
        }
      }
    }
  }

  /** `GetConfigPath`: scans the arguments and returns the first configuration path. */
  method GetConfigPath(args: seq<string>) returns (r: Option<string>)
    ensures r == FirstConfigArg(args)
  {
    var i := 0;
    while i < |args|
      invariant 0 <= i <= |args|
      invariant FirstConfigArg(args) == FirstConfigArg(args[i..])
    {
      assert args[i..][1..] == args[i + 1..];
      if HasSuffix(args[i], ConfigSuffix) {
        return Some(args[i]);
      }
      i := i + 1;
    }
    return None;
  }

  /** `IsImagePath`: the case-sensitive ".png"/".jpg" filter. */
  predicate IsImagePath(input: string) {
    HasSuffix(input, ".png") || HasSuffix(input, ".jpg")
  }

  /** An image path is one whose last four characters are ".png" or ".jpg". */
  lemma IsImagePathByExtension(input: string)
    ensures IsImagePath(input) <==> |input| >= 4 && input[|input| - 4..] in {".png", ".jpg"}
  {
  }

  /** The filter is case-sensitive and knows no other extension. */
  lemma IsImagePathRejects()
    ensures IsImagePath("icon.png") && IsImagePath("photo.jpg")
    ensures !IsImagePath("icon.PNG") && !IsImagePath("photo.JPG")
    ensures !IsImagePath("photo.jpeg") && !IsImagePath("anim.gif") && !IsImagePath("png")
  {
    assert "icon.png"[4..] == ".png";
    assert "photo.jpg"[5..] == ".jpg";
  }

  /** A configuration-file argument is never taken for an image. */
  lemma ConfigPathIsNotImage(arg: string)
    requires HasSuffix(arg, ConfigSuffix)
    ensures !IsImagePath(arg)
  {
    assert arg[|arg| - 2] == 'i';
  }

  /** The encoder `Encode` picks: JPEG at quality 100, PNG, or none at all. */
  datatype Format = Jpeg(quality: int) | Png | NoFormat

  /** The JPEG quality `Encode` passes to `jpeg.Encode`. */
  const JpegQuality: int := 100

  /** The suffix dispatch of `Encode`: "jpg" is checked first, then "png", neither with a dot. */
  function FormatFor(filename: string): (f: Format)
  {
    if HasSuffix(filename, "jpg") then Jpeg(JpegQuality)
    else if HasSuffix(filename, "png") then Png
    else NoFormat
  }

  /**
   * The dispatch of `Encode`: JPEG, always at quality 100, exactly for names
   * ending in "jpg"; PNG exactly for the other names ending in "png"; no
   * encoder for the rest.
   */
  lemma FormatForSuffixes(filename: string)
    ensures FormatFor(filename).Jpeg? <==> HasSuffix(filename, "jpg")
    ensures FormatFor(filename).Jpeg? ==> FormatFor(filename).quality == JpegQuality
    ensures FormatFor(filename) == Png <==> HasSuffix(filename, "png") && !HasSuffix(filename, "jpg")
    ensures FormatFor(filename) == NoFormat <==> !HasSuffix(filename, "jpg") && !HasSuffix(filename, "png")
  {
  }

  /** Every name that passes `IsImagePath` selects a format, the one its extension names. */
  lemma ImageNameSelectsFormat(name: string)
    requires IsImagePath(name)
    ensures FormatFor(name) == if HasSuffix(name, ".jpg") then Jpeg(JpegQuality) else Png
  {
    if HasSuffix(name, ".jpg") {
      HasSuffixTransitive(name, ".jpg", "jpg");
    } else {
      HasSuffixTransitive(name, ".png", "png");
      assert name[|name| - 3] == 'p';
    }
  }

  /**
   * `Encode`: the error of the selected encoder, given as `encoder`; a name
   * with neither suffix writes nothing and reports no error.
   */
  function Encode(filename: string, encoder: Format -> Option<string>): (err: Option<string>)
    ensures HasSuffix(filename, "jpg") ==> err == encoder(Jpeg(JpegQuality))
    ensures !HasSuffix(filename, "jpg") && HasSuffix(filename, "png") ==> err == encoder(Png)
    ensures !HasSuffix(filename, "jpg") && !HasSuffix(filename, "png") ==> err == None
  {
    var f := FormatFor(filename);
    if f == NoFormat then None else encoder(f)
  }
}
