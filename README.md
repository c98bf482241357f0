# image-ripper, modelled in Dafny

image-ripper is a small command-line program. It resizes PNG and JPEG images
into one copy per screen-density bucket (mdpi, hdpi, xhdpi, xxhdpi, xxxhdpi).
The program runs in four steps:

1. Find the first command-line argument ending in `.config` (`GetConfigPath`).
2. Build the configuration from built-in defaults, overlaid with that file's
   JSON when it parses (`ReadConfig`).
3. Pass every listed file whose name ends in `.png` or `.jpg` (`IsImagePath`)
   to `Resize`.
4. Print one "Unable to resize" line for each `Resize` call that fails, then
   go on with the next file.

`Resize` works on one input:

- It checks that the default size has a non-zero scale.
- It takes the file name after the last separator.
- It decodes the image once.
- For each entry of the sizes map it:
  - stops at a zero scale;
  - fills the `{size}` and `{file}` placeholders of the output template, one
    occurrence each;
  - joins the file name to the result;
  - saves the scaled image, stopping at the first failing save.

`Encode` picks the JPEG encoder (quality 100) for names ending in "jpg", PNG
for names ending in "png", and nothing otherwise.

The modules are:

- `Wrappers`: `Option`.
- `Strings`: suffix test, first occurrence, `strings.Replace(s, old, new, 1)`.
- `Paths`: the `/` separator, the base name of `Resize`, and `filepath.Join`
  without its cleaning step.
- `Templates`: placeholder expansion and the output path.
- `Selectors`: `GetConfigPath`, `IsImagePath`, `Encode`.
- `Configuration`: `Config`, the defaults, `ReadConfig`.
- `Resizer`: `Resize`.
- `Batch`: the loop of `main`.

The model has no file system, decoder or encoder. They are oracles:

- `decodeErr` is the outcome of `ReadImage`.
- `save(i, path)` is the outcome of the i-th `SaveImage` call of one `Resize`.
  In `Batch` it is `save(k, i, path)`, the i-th save for the k-th file, and
  the decode outcome is `decode(k)`.
- `parse(path)` is the outcome of reading and unmarshalling the
  configuration file.

Go visits a map in an unspecified order. That order is the parameter
`order`. `Enumerates` requires it to list every key of the sizes map exactly
once. In the batch, each file gets its own order, because Go may pick a
different order for every `range`.

Each loop of the source is a method proved equal to a recursive
specification function:

- `GetConfigPath` is proved equal to `FirstConfigArg`.
- `RunSizes` and `Resize` are proved equal to `SaveLoop` and `ResizeOutcome`.
- `RunBatch` and `Program` are proved equal to `BatchFrom`.

The lemmas state what the program promises about those functions.

`ReadConfig` unmarshals into a `Config` whose sizes map already holds the
five defaults, and `encoding/json` stores decoded entries into an existing
map. So a file whose sizes list only mdpi and hdpi keeps xhdpi, xxhdpi and
xxxhdpi, and those copies are written too
(`Configuration.PartialSizesKeepDefaults`). The default output template
"res/drawable" has no placeholder. With the defaults, every size is
therefore written to the same path "res/drawable/<file>", each save replacing
the last (`Resizer.DefaultConfigResize`).

## Model

| member | source | states |
|---|---|---|
| Strings.HasSuffix | main.go:139 | defines `strings.HasSuffix`; used by `GetConfigPath`, `IsImagePath` and `Encode`, its properties are in `Strings.HasSuffixTransitive` and the `Selectors` lemmas |
| Strings.ReplaceFirst | main.go:57-58 | defines `strings.Replace(s, old, new, 1)` by the first index; its properties are in `Strings.ReplaceFirstNoMatch`, `Strings.ReplaceFirstMatch` and `Strings.ReplaceFirstSplit` |
| Strings.IndexOf | main.go:57-58 | -1 exactly when the pattern occurs nowhere; otherwise an occurrence with none before it |
| Strings.ReplaceFirstNoMatch | main.go:57-58 | without an occurrence the string is unchanged |
| Strings.ReplaceFirstMatch | main.go:57-58 | with an occurrence, exactly the first one is replaced |
| Strings.ReplaceFirstSplit | main.go:57-58 | replacing in `a + pat + b`, with the first match right after `a`, gives `a + rep + b`; later matches stay |
| Paths.LastIndex | main.go:41-45 | the last position of the character, or -1 when it is absent |
| Paths.BaseName | main.go:41-45 | the result is a suffix of the input with no separator, preceded by one or by the start of the input |
| Paths.Join | main.go:59 | defines `filepath.Join` of two elements without cleaning: an empty element is dropped, otherwise one separator between them; properties in `Paths.JoinLastSegment` |
| Paths.JoinLastSegment | main.go:59 | joining keeps a non-empty, separator-free file name as the last segment and the suffix of the path |
| Paths.BaseNameKeepsSuffix | main.go:41-45 | a separator-free suffix of the input, such as its extension, is a suffix of the base name |
| Templates.Expand | main.go:56-58 | defines the two replacements in source order, `{size}` first; properties in `Templates.ExpandWithoutTokens`, `Templates.ExpandFirstOccurrences`, `Templates.SizeSubstitutedBeforeFile` and `Templates.SecondSizeTokenKept` |
| Templates.OutputPath | main.go:56-59 | defines the output path, the expanded template joined with the file name; properties in `Templates.OutputPathLastSegment`, `Templates.DefaultOutputPath` and `Templates.ExampleOutputPath` |
| Templates.ExpandWithoutTokens | main.go:56-58 | a template without placeholders is used as it is |
| Templates.ExpandFirstOccurrences | main.go:56-58 | `{size}` goes first, then `{file}` in the result, each first occurrence only |
| Templates.SizeSubstitutedBeforeFile | main.go:57-58 | a `{file}` brought in by the size name is itself replaced |
| Templates.SecondSizeTokenKept | main.go:57 | a second `{size}` placeholder stays in the path |
| Templates.OutputPathLastSegment | main.go:56-59 | the file name is the last segment of every output path |
| Templates.DefaultOutputPath | main.go:56-59 | the default template gives "res/drawable/<file>" for every size |
| Templates.ExampleOutputPath | main.go:56-59 | "out/{size}", "hdpi" and "photo.png" give "out/hdpi/photo.png" |
| Selectors.FirstConfigArg | main.go:137-144 | defines the result of `GetConfigPath` by recursion over the arguments; characterized by `Selectors.FirstConfigArgIsFirst` and the target of `Selectors.GetConfigPath` |
| Selectors.FirstConfigArgIsFirst | main.go:137-144 | no path exactly when no argument ends in ".config"; otherwise the first such argument |
| Selectors.GetConfigPath | main.go:137-144 | the loop returns the first argument ending in ".config", or none |
| Selectors.IsImagePath | main.go:146-150 | defines the filter, ending in ".png" or ".jpg"; properties in `Selectors.IsImagePathByExtension`, `Selectors.IsImagePathRejects` and `Selectors.ConfigPathIsNotImage` |
| Selectors.IsImagePathByExtension | main.go:146-150 | an image path is one whose last four characters are ".png" or ".jpg" |
| Selectors.IsImagePathRejects | main.go:146-150 | the test is case-sensitive and needs the dot: "icon.PNG", "photo.jpeg", "anim.gif" and "png" are rejected |
| Selectors.ConfigPathIsNotImage | main.go:146-148 | a name ending in ".config" is never an image path |
| Selectors.FormatFor | main.go:154-158 | defines the suffix dispatch of `Encode`, "jpg" tested before "png"; characterized in both directions by `Selectors.FormatForSuffixes` |
| Selectors.FormatForSuffixes | main.go:152-160 | JPEG at quality 100 exactly for names ending in "jpg"; PNG exactly for the other names ending in "png"; no encoder exactly for names with neither suffix |
| Selectors.ImageNameSelectsFormat | main.go:152-158 | every image path selects the encoder of its own extension |
| Selectors.Encode | main.go:152-160 | a name ending in "jpg" gets the JPEG encoder's error at quality 100; any other name ending in "png" gets the PNG encoder's error; any other name gets no error |
| Configuration.Scale | main.go:37 | a missing size reads as scale 0, the map's zero value |
| Configuration.DefaultConfig | main.go:112-123 | defines the defaults: "xxxhdpi", "res/drawable", the arguments as files and the five scales; properties in `Configuration.DefaultConfigScales` |
| Configuration.DefaultConfigScales | main.go:112-123 | the defaults pass the default-size check (scale 4), no default scale is 0, and the output is "res/drawable" |
| Configuration.Apply | main.go:127 | present strings and file list are replaced; size entries are stored into the existing map; a null map empties it |
| Configuration.ReadConfig | main.go:124-134 | with no path, or a file that fails to read or parse, the defaults are kept |
| Configuration.ReadConfigKeepsDefaultSizes | main.go:116-127 | a default size survives unless the file sets it or nulls the map |
| Configuration.ReadConfigFiles | main.go:115-127 | the files are those the file lists, else all the command-line arguments |
| Configuration.PartialSizesKeepDefaults | main.go:116-127 | a file listing only mdpi and hdpi still leaves all five sizes, xxxhdpi at 4 |
| Resizer.Message | main.go:39 | a zero-scale error reads "in <size> scale must not be 0" |
| Resizer.Enumerates | main.go:51 | states how `range config.Sizes` visits the map: every entry is a key, every key appears, no key twice; used by `Resizer.EnumerationLength`, `Resizer.SavesCoverKeys` and `Resizer.ResizeSucceedsIff` |
| Resizer.PathsFor | main.go:56-59 | the output path of each size for one input, `OutputPath` with the template and file name fixed; its value is stated in `Resizer.ResizeSavesFollowOrder` |
| Resizer.SaveCallFor | main.go:55-60 | the arguments of one `ScaleImage`/`SaveImage` pair: the size, its scale, the default scale and the output path; stated per save in `Resizer.ResizeSavesFollowOrder` and `Resizer.SaveLoopCalls` |
| Resizer.SaveLoop | main.go:51-65 | defines the size loop from a position by recursion; the target of `Resizer.RunSizes`, characterized by `Resizer.SaveLoopCalls`, `Resizer.SaveLoopEnd` and `Resizer.SaveLoopSucceeds` |
| Resizer.ResizeOutcome | main.go:36-66 | defines what one `Resize` call does; the target of `Resizer.Resize`, characterized by the `Resizer.Resize…` lemmas below |
| Resizer.RunSizes | main.go:51-65 | the loop over sizes yields the saves and error of `SaveLoop` |
| Resizer.Resize | main.go:36-66 | the method yields `ResizeOutcome` for any enumeration of the sizes map |
| Resizer.EnumerationLength | main.go:51 | an enumeration has one entry per key |
| Resizer.SaveLoopCalls | main.go:51-64 | the saves follow the order; each has a non-zero scale; all succeed except possibly the last, whose error is returned |
| Resizer.SaveLoopEnd | main.go:51-64 | the loop ends at the last size, at a size with scale 0, or right after the failing save |
| Resizer.SaveLoopSucceeds | main.go:51-65 | no error exactly when every remaining scale is non-zero and every save succeeds |
| Resizer.ResizeDefaultZero | main.go:37-40 | a zero or missing default scale fails before decoding, names the default size, and saves nothing |
| Resizer.ResizeSavesFollowOrder | main.go:51-60 | the k-th save is for the k-th size visited, to its templated path, at its scale over the default scale |
| Resizer.ResizeZeroScaleNamesSize | main.go:37-53 | a zero-scale error names the default size before decoding, or the size the loop stopped at; its scale is 0 |
| Resizer.ResizeStopsAtFirstFailedSave | main.go:60-63 | a failed save is the last one attempted; all earlier saves succeeded |
| Resizer.ResizeSucceedsIff | main.go:36-66 | nil exactly when the default scale is non-zero, the decode succeeds, no scale is 0 and every save succeeds |
| Resizer.SavesCoverKeys | main.go:51 | saves that follow an enumeration cover every size once |
| Resizer.ResizeSuccessSavesEverySize | main.go:51-65 | on success exactly one save per configured size, each ending in the input's file name |
| Resizer.ImageOutputPathFormat | main.go:41-59 | an image input's output path selects its extension's encoder, whatever the template and size |
| Resizer.ImageInputSelectsFormat | main.go:41-60 | every save for an image input is encoded as JPEG at quality 100 or as PNG, by its extension |
| Resizer.DefaultSizeFactorOne | main.go:55 | the copy for the default size is scaled by exactly 1 |
| Resizer.DefaultConfigResize | main.go:36-66 | with the defaults no zero-scale error occurs, and every save goes to "res/drawable/<file>" |
| Batch.ImagesFrom | main.go:26 | the positions of the files that pass `IsImagePath`; characterized by `Batch.ImagesFromPositions` |
| Batch.RunAt | main.go:27 | the `Resize(file, config)` call of one position, with its own order, decode and saves; `Batch.BatchRunsEveryImage` states that the batch makes exactly these calls |
| Batch.ReportOf | main.go:28-31 | the "Unable to resize <file>: <message>" line of one call, present exactly when it failed; see `Batch.FailureReportsMembers` |
| Batch.BatchFrom | main.go:25-33 | defines the loop of `main` from a position by recursion; the target of `Batch.RunBatch` and `Batch.Program`, characterized by `Batch.BatchRunsEveryImage` and `Batch.BatchReportsFailures` |
| Batch.ImagesFromPositions | main.go:25-26 | the positions passed to `Resize` are exactly the image files, in increasing order |
| Batch.BatchRunsEveryImage | main.go:25-33 | one `Resize` call per image file, in list order; each depends only on its own file, and a failure stops no later file |
| Batch.BatchReportsFailures | main.go:27-31 | the printed lines are the reports of the failed calls, in order |
| Batch.FailureReportsMembers | main.go:28-31 | a line exists exactly for each failed call, with the file and the error's text |
| Batch.RunBatchStep | main.go:25-33 | one iteration of the loop adds the file's run and line when it is an image, and nothing otherwise |
| Batch.RunBatch | main.go:25-33 | the loop over the files yields `BatchFrom` |
| Batch.ProgramConfig | main.go:24 | `ReadConfig(GetConfigPath(args))`; `Batch.Program` is proved to compute it, and `Batch.ConfigFileNeverResized` is stated over it |
| Batch.Program | main.go:20-34 | configuration from the first ".config" argument, then the batch over its files |
| Batch.ConfigFileNeverResized | main.go:24-26 | the configuration file, which stays among the default files, is never resized |

## Left out

- Image decoding, `ScaleImage` (float32 width and height, truncated to `uint`, resampled with Lanczos3) and PNG/JPEG encoding are foreign code. The model records for each save the scale and the reference scale, not the pixels.
- Scales are reals, not float32. Only the test against 0 and the ratio's operands are modelled, so rounding in float32 does not arise.
- File-system I/O is modelled only as oracle outcomes: `ReadFile`, `ReadImage`, `os.MkdirAll`, `os.Create`, `SaveImage`.
- The decode oracle `decode(k)` and the save oracle `save(k, i, path)` are indexed by file position. Saves by an earlier call that overwrite a later input are therefore not connected to that input's decode.
- JSON decoding is modelled only as its outcome (`Override`). Field names are matched without regard to case; this is not modelled, since the outcome is given.
- A failed read of the configuration file is not a separate outcome. Its error is overwritten by `json.Unmarshal` of the empty contents, which fails too. Both are a failed `parse`.
- Printing is left out: the version banner, "Used config", "Unable to parse config". The "Unable to resize" lines are kept as `Report` values.
- `os.Args` is the parameter `args`.
- Paths.Join: does not model the lexical cleaning of `filepath.Join` (collapsing "//", "." and ".."). It models only the dropping of empty elements and the single separator between them.
- The separator is '/'. The Windows separator is left out.
- Strings are sequences of characters, not UTF-8 bytes. The operations used only compare and cut at ASCII characters.
- `SaveImage` ignores the errors of `writer.Flush` and `file.Close`. The save oracle gives the error `SaveImage` returns, so these errors are not part of it.
- `SaveImage` calls `Encode` with the output path. The model relates the two through the lemmas on `FormatFor`, not inside the save oracle.
