/**
 * `Config` and `ReadConfig`: the built-in defaults and the optional override
 * loaded from a configuration file.
 */
module Configuration {
  import opened Wrappers
  import opened Paths

  /** `Config`; the float32 scale factors are modelled as reals. */
  datatype Config = Config(defaultSize: string, output: string, files: seq<string>, sizes: map<string, real>)

  /** What decoding the "sizes" member of a configuration file does to the map it decodes into. */
  datatype SizesField =
    | Keep                            // the member is absent
    | Clear                           // the member is null: the map becomes nil
    | Merge(entries: map<string, real>)  // an object: its entries are stored, the others kept

  /**
   * The members a configuration file sets. An absent member is `None`
   * (`Keep` for the sizes); a null or empty "files" list is `Some([])`.
   */
  datatype Override = Override(
    defaultSize: Option<string>,
    output: Option<string>,
    files: Option<seq<string>>,
    sizes: SizesField)

  const DefaultSizeName: string := "xxxhdpi"

  const DefaultSizes: map<string, real> :=
    map["mdpi" := 1.0, "hdpi" := 1.5, "xhdpi" := 2.0, "xxhdpi" := 3.0, "xxxhdpi" := 4.0]

  /** The defaults `ReadConfig` starts from; the files are all the command-line arguments. */
  function DefaultConfig(args: seq<string>): (c: Config)
  {
    Config(DefaultSizeName, Join("res", "drawable"), args, DefaultSizes)
  }

  /** A map lookup in Go: a missing key yields the zero value. */
  function Scale(sizes: map<string, real>, name: string): (r: real)
    ensures name in sizes ==> r == sizes[name]
    ensures name !in sizes ==> r == 0.0
  {
    if name in sizes then sizes[name] else 0.0
  }

  /** The built-in defaults pass the default-size check, and no size has scale 0. */
  lemma DefaultConfigScales(args: seq<string>)
    ensures Scale(DefaultConfig(args).sizes, DefaultConfig(args).defaultSize) == 4.0
    ensures forall k :: k in DefaultConfig(args).sizes ==> DefaultConfig(args).sizes[k] != 0.0
    ensures DefaultConfig(args).output == "res/drawable"
  {
  }

  /**
   * Decoding a configuration file into `c`: strings and the file list are
   * replaced when present, and size entries are stored into the existing map.
   */
  function Apply(c: Config, o: Override): (r: Config)
    ensures r.defaultSize == (if o.defaultSize.Some? then o.defaultSize.value else c.defaultSize)
    ensures r.output == (if o.output.Some? then o.output.value else c.output)
    ensures r.files == (if o.files.Some? then o.files.value else c.files)
    ensures o.sizes == Keep ==> r.sizes == c.sizes
    ensures o.sizes == Clear ==> r.sizes == map[]
    ensures o.sizes.Merge? ==> r.sizes.Keys == c.sizes.Keys + o.sizes.entries.Keys
    ensures o.sizes.Merge? ==> forall k :: k in r.sizes ==>
              r.sizes[k] == if k in o.sizes.entries then o.sizes.entries[k] else c.sizes[k]
  {
    var sizes := match o.sizes
      case Keep => c.sizes
      case Clear => map[]
      case Merge(entries) => c.sizes + entries;
    Config(
      if o.defaultSize.Some? then o.defaultSize.value else c.defaultSize,
      if o.output.Some? then o.output.value else c.output,
      if o.files.Some? then o.files.value else c.files,
      sizes)
  }

  /**
   * `ReadConfig`: the defaults, overridden by the configuration file when one
   * is named and parses. `parse` is the outcome of reading and decoding that
   * file: `None` when the read fails or the text is not valid JSON, so that
   * nothing is stored; otherwise the members decoded. A member of the wrong
   * type is skipped while the others are still stored, which is `Some` of
   * the members decoded.
   */
  function ReadConfig(input: Option<string>, args: seq<string>, parse: string -> Option<Override>): (c: Config)
    ensures input.None? || parse(input.value).None? ==> c == DefaultConfig(args)
    ensures input.Some? && parse(input.value).Some? ==> c == Apply(DefaultConfig(args), parse(input.value).value)
  {
    var config := DefaultConfig(args);
    if input.None? then config
    else match parse(input.value)
      case None => config
      case Some(o) => Apply(config, o)
  }

  /**
   * Whatever the file says, a default size survives unless the file names it
   * or clears the map: the defaults are merged into, not replaced.
   */
  lemma ReadConfigKeepsDefaultSizes(input: Option<string>, args: seq<string>, parse: string -> Option<Override>, k: string)
    requires k in DefaultSizes
    requires input.Some? && parse(input.value).Some? ==>
               var s := parse(input.value).value.sizes; !s.Clear? && (s.Merge? ==> k !in s.entries)
    ensures k in ReadConfig(input, args, parse).sizes
    ensures ReadConfig(input, args, parse).sizes[k] == DefaultSizes[k]
  {
  }

  /** Without a configuration file every command-line argument is an input file. */
  lemma ReadConfigFiles(input: Option<string>, args: seq<string>, parse: string -> Option<Override>)
    ensures ReadConfig(input, args, parse).files ==
              if input.Some? && parse(input.value).Some? && parse(input.value).value.files.Some?
              then parse(input.value).value.files.value else args
  {
  }

  /**
   * A configuration file whose "sizes" names only "mdpi" and "hdpi" still
   * leaves the other three default sizes in the map.
   */
  lemma PartialSizesKeepDefaults(path: string, args: seq<string>, parse: string -> Option<Override>)
    requires parse(path) == Some(Override(Some("mdpi"), Some("out/{size}"), None,
                                          Merge(map["mdpi" := 1.0, "hdpi" := 1.5])))
    ensures ReadConfig(Some(path), args, parse).sizes.Keys == DefaultSizes.Keys
    ensures ReadConfig(Some(path), args, parse).sizes["xxxhdpi"] == 4.0
    ensures ReadConfig(Some(path), args, parse).files == args
  {
    assert DefaultSizes.Keys + {"mdpi", "hdpi"} == DefaultSizes.Keys;
  }
}
