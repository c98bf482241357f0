/**
 * `main`: finds the configuration file among the arguments, reads the
 * configuration, and calls `Resize` on every listed file that looks like an
 * image, printing one line for each call that fails and going on with the
 * next file.
 */
module Batch {
  import opened Wrappers
  import opened Strings
  import opened Selectors
  import opened Configuration
  import opened Resizer

  /** One `Resize` call of the batch: the file and what the call did. */
  datatype Run = Run(file: string, outcome: Outcome)

  /** One line "Unable to resize <file>: <message>" that `main` prints. */
  datatype Report = Report(file: string, message: string)

  /**
   * The positions of `files`, from `k` on, that pass `IsImagePath`, in
   * increasing order: the files the batch hands to `Resize`.
   */
  function ImagesFrom(files: seq<string>, k: nat): (r: seq<nat>)
    requires k <= |files|
    decreases |files| - k
  {
    if k == |files| then []
    else (if IsImagePath(files[k]) then [k] else []) + ImagesFrom(files, k + 1)
  }

  /** The save oracle of the file at position `k`, as `Resize` sees it. */
  function SavesOf(save: (nat, nat, string) -> Option<string>, k: nat): (s: (nat, string) -> Option<string>)
  {
    (i: nat, path: string) => save(k, i, path)
  }

  /**
   * The `Resize` call for the file at position `k`: its own iteration order
   * `orders[k]`, the decode result `decode(k)` and its own saves.
   */
  function RunAt(files: seq<string>, k: nat, config: Config, orders: seq<seq<string>>,
                 decode: nat -> Option<string>, save: (nat, nat, string) -> Option<string>): (r: Run)
    requires k < |files| == |orders|
  {
    Run(files[k], ResizeOutcome(files[k], config, orders[k], decode(k), SavesOf(save, k)))
  }

  /** The line printed for a run: one when `Resize` returned an error, none otherwise. */
  function ReportOf(run: Run): (r: seq<Report>)
  {
    if run.outcome.err.Some? then [Report(run.file, Message(run.outcome.err.value))] else []
  }

  /**
   * The loop of `main` from position `k`: the runs it makes and the lines it
   * prints, each line right after its run.
   */
  function BatchFrom(files: seq<string>, k: nat, config: Config, orders: seq<seq<string>>,
                     decode: nat -> Option<string>, save: (nat, nat, string) -> Option<string>): (r: (seq<Run>, seq<Report>))
    requires k <= |files| == |orders|
    decreases |files| - k
  {
    if k == |files| then ([], [])
    else
      var rest := BatchFrom(files, k + 1, config, orders, decode, save);
      if IsImagePath(files[k]) then
        var run := RunAt(files, k, config, orders, decode, save);
        ([run] + rest.0, ReportOf(run) + rest.1)
      else rest
  }

  /** The lines printed for a sequence of runs, taken afterwards: one per failed run, in order. */
  function FailureReports(runs: seq<Run>): (r: seq<Report>)
  {
    if runs == [] then [] else ReportOf(runs[0]) + FailureReports(runs[1..])
  }

  /**
   * `ImagesFrom` lists exactly the image positions from `k` on, each once,
   * in increasing order.
   */
  lemma {:induction false} ImagesFromPositions(files: seq<string>, k: nat)
    requires k <= |files|
    ensures var r := ImagesFrom(files, k);
      && (forall j :: 0 <= j < |r| ==> k <= r[j] < |files| && IsImagePath(files[r[j]]))
      && (forall i, j :: 0 <= i < j < |r| ==> r[i] < r[j])
      && (forall m :: k <= m < |files| && IsImagePath(files[m]) ==> m in r)
    decreases |files| - k
  {
    if k < |files| {
      ImagesFromPositions(files, k + 1);
      var head: seq<nat> := if IsImagePath(files[k]) then [k] else [];
      var rest := ImagesFrom(files, k + 1);
      var r := ImagesFrom(files, k);
      assert r == head + rest;
      forall j | 0 <= j < |r| ensures k <= r[j] < |files| && IsImagePath(files[r[j]]) {
        if j >= |head| {
          assert r[j] == rest[j - |head|];
        }
      }
    }
  }

  /**
   * The batch resizes exactly the image files, in the order of the files
   * list, and each call depends only on its own file, order and oracles: a
   * failing call never stops or changes the later ones.
   */
  lemma {:induction false} BatchRunsEveryImage(files: seq<string>, k: nat, config: Config, orders: seq<seq<string>>,
                                               decode: nat -> Option<string>, save: (nat, nat, string) -> Option<string>)
    requires k <= |files| == |orders|
    ensures var r := BatchFrom(files, k, config, orders, decode, save);
      var images := ImagesFrom(files, k);
      && |r.0| == |images|
      && forall j :: 0 <= j < |r.0| ==> images[j] < |files| && r.0[j] == RunAt(files, images[j], config, orders, decode, save)
    decreases |files| - k
  {
    if k < |files| {
      BatchRunsEveryImage(files, k + 1, config, orders, decode, save);
      ImagesFromPositions(files, k + 1);
      var rest := BatchFrom(files, k + 1, config, orders, decode, save);
      var r := BatchFrom(files, k, config, orders, decode, save);
      var later := ImagesFrom(files, k + 1);
      var images := ImagesFrom(files, k);
      if IsImagePath(files[k]) {
        assert r.0 == [RunAt(files, k, config, orders, decode, save)] + rest.0;
        assert images == [k] + later;
        forall j | 0 <= j < |r.0|
          ensures images[j] < |files| && r.0[j] == RunAt(files, images[j], config, orders, decode, save)
        {
          if j > 0 {
            assert r.0[j] == rest.0[j - 1];
            assert images[j] == later[j - 1];
          }
        }
      } else {
        assert r == rest;
        assert images == later;
      }
    }
  }

  /** The lines printed along the way are the failure reports of the runs, in order. */
  lemma {:induction false} BatchReportsFailures(files: seq<string>, k: nat, config: Config, orders: seq<seq<string>>,
                                                decode: nat -> Option<string>, save: (nat, nat, string) -> Option<string>)
    requires k <= |files| == |orders|
    ensures var r := BatchFrom(files, k, config, orders, decode, save);
      r.1 == FailureReports(r.0)
    decreases |files| - k
  {
    if k < |files| {
      BatchReportsFailures(files, k + 1, config, orders, decode, save);
      var rest := BatchFrom(files, k + 1, config, orders, decode, save);
      if IsImagePath(files[k]) {
        var run := RunAt(files, k, config, orders, decode, save);
        assert ([run] + rest.0)[1..] == rest.0;
      }
    }
  }

  /** A report names a run that failed and carries its error's text; every failed run has one. */
  lemma {:induction false} FailureReportsMembers(runs: seq<Run>, rep: Report)
    ensures rep in FailureReports(runs) <==>
            exists j :: 0 <= j < |runs| && runs[j].outcome.err.Some? &&
                        rep == Report(runs[j].file, Message(runs[j].outcome.err.value))
  {
    if runs != [] {
      FailureReportsMembers(runs[1..], rep);
      if exists j :: 0 <= j < |runs[1..]| && runs[1..][j].outcome.err.Some? &&
                     rep == Report(runs[1..][j].file, Message(runs[1..][j].outcome.err.value)) {
        var j :| 0 <= j < |runs[1..]| && runs[1..][j].outcome.err.Some? &&
                 rep == Report(runs[1..][j].file, Message(runs[1..][j].outcome.err.value));
        assert runs[j + 1] == runs[1..][j];
      }
      if exists j :: 0 <= j < |runs| && runs[j].outcome.err.Some? &&
                     rep == Report(runs[j].file, Message(runs[j].outcome.err.value)) {
        var j :| 0 <= j < |runs| && runs[j].outcome.err.Some? &&
                 rep == Report(runs[j].file, Message(runs[j].outcome.err.value));
        if j > 0 {
          assert runs[1..][j - 1] == runs[j];
        }
      }
    }
  }

  /**
   * One step of the loop of `main`: at position `k` with the runs and lines
   * so far, an image file adds its run and its line, any other file nothing.
   */
  lemma RunBatchStep(files: seq<string>, k: nat, config: Config, orders: seq<seq<string>>,
                     decode: nat -> Option<string>, save: (nat, nat, string) -> Option<string>,
                     runs: seq<Run>, reports: seq<Report>)
    requires k < |files| == |orders|
    ensures var here := BatchFrom(files, k, config, orders, decode, save);
      var rest := BatchFrom(files, k + 1, config, orders, decode, save);
      var run := RunAt(files, k, config, orders, decode, save);
      if IsImagePath(files[k]) then
        runs + here.0 == (runs + [run]) + rest.0 && reports + here.1 == (reports + ReportOf(run)) + rest.1
      else here == rest
  {
    var rest := BatchFrom(files, k + 1, config, orders, decode, save);
    var run := RunAt(files, k, config, orders, decode, save);
    if IsImagePath(files[k]) {
      assert runs + ([run] + rest.0) == (runs + [run]) + rest.0;
      assert reports + (ReportOf(run) + rest.1) == (reports + ReportOf(run)) + rest.1;
    }
  }

  /**
   * The `for _, file := range config.Files` loop of `main`: one `Resize`
   * call per image file, one printed line per failed call.
   */
  method RunBatch(files: seq<string>, config: Config, orders: seq<seq<string>>,
                  decode: nat -> Option<string>, save: (nat, nat, string) -> Option<string>)
    returns (runs: seq<Run>, reports: seq<Report>)
    requires |files| == |orders|
    requires forall k :: 0 <= k < |orders| ==> Enumerates(orders[k], config.sizes.Keys)
    ensures (runs, reports) == BatchFrom(files, 0, config, orders, decode, save)
  {
    ghost var whole := BatchFrom(files, 0, config, orders, decode, save);
    runs, reports := [], [];
    var k := 0;
    assert [] + whole.0 == whole.0 && [] + whole.1 == whole.1;
    while k < |files|
      invariant k <= |files|
      invariant runs + BatchFrom(files, k, config, orders, decode, save).0 == whole.0
      invariant reports + BatchFrom(files, k, config, orders, decode, save).1 == whole.1
    {
      RunBatchStep(files, k, config, orders, decode, save, runs, reports);
      var file := files[k];
      if IsImagePath(file) {
        var out := Resize(file, config, orders[k], decode(k), SavesOf(save, k));
        var run := Run(file, out);
        assert run == RunAt(files, k, config, orders, decode, save);
        runs := runs + [run];
        reports := reports + ReportOf(run);
      }
      k := k + 1;
    }
    assert runs + [] == runs && reports + [] == reports;
  }

  /** The configuration `main` works with, before any file is resized. */
  function ProgramConfig(args: seq<string>, parse: string -> Option<Override>): (c: Config)
  {
    ReadConfig(FirstConfigArg(args), args, parse)
  }

  /**
   * `main`: the configuration path, the configuration, then the batch over
   * its files. `orders[k]` is the order in which the sizes map is visited
   * while the k-th file is resized.
   */
  method Program(args: seq<string>, parse: string -> Option<Override>, orders: seq<seq<string>>,
                 decode: nat -> Option<string>, save: (nat, nat, string) -> Option<string>)
    returns (config: Config, runs: seq<Run>, reports: seq<Report>)
    requires |orders| == |ProgramConfig(args, parse).files|
    requires forall k :: 0 <= k < |orders| ==> Enumerates(orders[k], ProgramConfig(args, parse).sizes.Keys)
    ensures config == ReadConfig(FirstConfigArg(args), args, parse)
    ensures (runs, reports) == BatchFrom(config.files, 0, config, orders, decode, save)
  {
    var path := GetConfigPath(args);
    config := ReadConfig(path, args, parse);
    runs, reports := RunBatch(config.files, config, orders, decode, save);
  }

  /**
   * Without a readable configuration the files are the arguments
   * themselves, the configuration path among them; it is still never
   * resized, because a ".config" name is not an image path.
   */
  lemma ConfigFileNeverResized(args: seq<string>, parse: string -> Option<Override>, orders: seq<seq<string>>,
                               decode: nat -> Option<string>, save: (nat, nat, string) -> Option<string>)
    requires |orders| == |ProgramConfig(args, parse).files|
    ensures var config := ProgramConfig(args, parse);
      var runs := BatchFrom(config.files, 0, config, orders, decode, save).0;
      forall j :: 0 <= j < |runs| ==> IsImagePath(runs[j].file) && !HasSuffix(runs[j].file, ConfigSuffix)
  {
    var config := ProgramConfig(args, parse);
    var runs := BatchFrom(config.files, 0, config, orders, decode, save).0;
    BatchRunsEveryImage(config.files, 0, config, orders, decode, save);
    ImagesFromPositions(config.files, 0);
    forall j | 0 <= j < |runs| ensures IsImagePath(runs[j].file) && !HasSuffix(runs[j].file, ConfigSuffix) {
      if HasSuffix(runs[j].file, ConfigSuffix) {
        ConfigPathIsNotImage(runs[j].file);
      }
    }
  }
}
