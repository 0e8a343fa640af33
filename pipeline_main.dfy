/** The driver of the RNA-seq pipeline script (`main`): for every cell type
    it points the results directory at `<results root>/<cell type>`, lists
    that cell type's input files and threads the working file list through
    the configured stages, dispatching each stage's tool over the files with
    the cluster's parallel map. */
module PipelineMain {
  import opened PyValues
  import opened PosixPath
  import opened Pipeline
  import opened Wrappers
  import opened Traces

  /** What the driver does to the world, in order. */
  datatype Effect =
    | MakeDir(path: string)                                          // safe_makedir
    | Dispatch(tool: Tool, units: seq<seq<Value>>)                   // one view.map call
    | CombineCounts(counts: seq<Value>, columns: seq<Value>, outFile: string)
    | WriteTable(table: Value, outFile: string)                      // rpkm.to_csv

  /** The tools the driver calls into; their internals are not modelled. */
  datatype Toolbox = Toolbox(
    run: Runner,
    combineCounts: (seq<Value>, seq<Value>, string) -> Result<Value>,
    calculateRpkm: (Value, Value) -> Result<Value>)

  // ---------------------------------------------------------------------
  // The configuration's results directory

  /** `config["dir"]` is a dictionary. */
  predicate HasDirs(config: Value)
  {
    config.VDict? && "dir" in config.entries && config.entries["dir"].VDict?
  }

  /** `config["dir"]["results"] = dir`: reading the results directory back
      gives the new directory. */
  function SetResults(config: Value, dir: string): (c: Value)
    requires HasDirs(config)
    ensures HasDirs(c)
    ensures ResultsDir(c) == Ok(dir)
  {
    VDict(config.entries["dir" := VDict(config.entries["dir"].entries["results" := VStr(dir)])])
  }

  /** Writing the results directory sets exactly that entry: every other
      setting is unchanged. */
  lemma SetResultsKeepsOthers(config: Value, dir: string)
    requires HasDirs(config)
    ensures var c := SetResults(config, dir);
      && c.entries.Keys == config.entries.Keys
      && (forall k :: k in config.entries && k != "dir" ==> c.entries[k] == config.entries[k])
      && c.entries["dir"].entries.Keys == config.entries["dir"].entries.Keys + {"results"}
      && (forall k :: k in config.entries["dir"].entries && k != "results" ==>
            c.entries["dir"].entries[k] == config.entries["dir"].entries[k])
  {
  }

  /** `config["dir"]["results"]`, used as a path. */
  function ResultsDir(config: Value): Result<string>
  {
    var dirs :- GetItem(config, "dir");
    var results :- GetItem(dirs, "results");
    AsStr(results)
  }

  /** Each write of the results directory replaces the previous one: the
      configuration seen by a cell type does not depend on which cell types
      ran before it, so directories never nest. */
  lemma SetResultsOverwrite(config: Value, a: string, b: string)
    requires HasDirs(config)
    ensures SetResults(SetResults(config, a), b) == SetResults(config, b)
  {
    var c1 := SetResults(SetResults(config, a), b);
    var c2 := SetResults(config, b);
    assert c1.entries["dir"].entries == c2.entries["dir"].entries;
    assert c1.entries == c2.entries;
  }

  // ---------------------------------------------------------------------
  // Output paths of the counting stage

  /** `<results>/htseq-count/<cell type>.combined.counts`. */
  function CountsPath(results: string, cellType: string): string
  {
    JoinAll(results, ["htseq-count", cellType + ".combined.counts"])
  }

  /** `<results>/htseq-count/<cell type>.rpkm.txt`. */
  function RpkmPath(results: string, cellType: string): string
  {
    JoinAll(results, ["htseq-count", cellType + ".rpkm.txt"])
  }

  /** The combined counts of a cell type are named after it and live in the
      `htseq-count` directory under the results directory. */
  lemma CountsPathShape(results: string, cellType: string)
    requires '/' !in cellType
    ensures CountsPath(results, cellType) == Join(Join(results, "htseq-count"), cellType + ".combined.counts")
    ensures Basename(CountsPath(results, cellType)) == cellType + ".combined.counts"
    ensures Basename(RpkmPath(results, cellType)) == cellType + ".rpkm.txt"
  {
    assert '/' !in cellType + ".combined.counts";
    assert '/' !in cellType + ".rpkm.txt";
    JoinTwo(results, "htseq-count", cellType + ".combined.counts");
    JoinTwo(results, "htseq-count", cellType + ".rpkm.txt");
    BasenameOfJoin(Join(results, "htseq-count"), cellType + ".combined.counts");
    BasenameOfJoin(Join(results, "htseq-count"), cellType + ".rpkm.txt");
  }

  lemma JoinTwo(a: string, b: string, c: string)
    ensures JoinAll(a, [b, c]) == Join(Join(a, b), c)
  {
    assert [b, c][1..] == [c];
    assert JoinAll(a, [b, c]) == JoinAll(Join(a, b), [c]);
    assert [c][1..] == [];
    assert JoinAll(Join(a, b), [c]) == JoinAll(Join(Join(a, b), c), []);
  }

  /** Two different cell types (names without `/`) never write the same
      combined-counts or RPKM file, whatever the results root. */
  lemma ArtifactPathsDistinct(root: string, a: string, b: string)
    requires '/' !in a && '/' !in b && a != b
    ensures CountsPath(Join(root, a), a) != CountsPath(Join(root, b), b)
    ensures RpkmPath(Join(root, a), a) != RpkmPath(Join(root, b), b)
  {
    CountsPathShape(Join(root, a), a);
    CountsPathShape(Join(root, b), b);
    SuffixCancel(a, b, ".combined.counts");
    SuffixCancel(a, b, ".rpkm.txt");
  }

  /** An absolute cell type's artifacts sit beside its directory, not in
      it: `os.path.join` keeps the absolute last part `<cell type>.…`, so
      the results directory is dropped from both paths. */
  lemma AbsoluteCellTypeArtifacts(root: string, cellType: string)
    requires IsAbsolute(cellType)
    ensures CountsPath(Join(root, cellType), cellType) == cellType + ".combined.counts"
    ensures RpkmPath(Join(root, cellType), cellType) == cellType + ".rpkm.txt"
  {
    var results := Join(root, cellType);
    JoinTwo(results, "htseq-count", cellType + ".combined.counts");
    JoinTwo(results, "htseq-count", cellType + ".rpkm.txt");
  }

  lemma SuffixCancel(a: string, b: string, suffix: string)
    requires a != b
    ensures a + suffix != b + suffix
  {
    if |a| == |b| {
      var k :| 0 <= k < |a| && a[k] != b[k];
      assert (a + suffix)[k] != (b + suffix)[k];
    }
  }

  // ---------------------------------------------------------------------
  // One stage

  /** One mapped stage: the tool is dispatched over `zip(*product(curr,
      [c1], ...))`, i.e. once per file with that file and the constants, and
      yields one output per file, in file order, or the first failure. */
  function MapStage(tb: Toolbox, tool: Tool, curr: seq<Value>, consts: seq<Value>): (t: Trace<Effect, seq<Value>>)
    ensures t.effects == [Dispatch(tool, Tuples(curr, consts))]
    ensures t.result.Ok? <==> forall i :: 0 <= i < |curr| ==> tb.run(tool, [curr[i]] + consts).Ok?
    ensures t.result.Ok? ==>
              && |t.result.value| == |curr|
              && forall i :: 0 <= i < |curr| ==> tb.run(tool, [curr[i]] + consts) == Ok(t.result.value[i])
  {
    var cols := ArgColumns(curr, consts);
    ArgColumnsShape(curr, consts);
    assert forall i :: 0 <= i < |curr| ==> Units(cols)[i] == [curr[i]] + consts;
    Trace([Dispatch(tool, Units(cols))], ParallelMap(tb.run, tool, cols))
  }

  /** `config["annotation"]["file"]`. */
  function Annotation(config: Value): Result<Value>
  {
    var annotation :- GetItem(config, "annotation");
    GetItem(annotation, "file")
  }

  /** After the counting map: combine the per-file counts under the cell
      type's ORIGINAL input file names, then compute and write the RPKM table.
      The working file list is handed on unchanged. */
  function Aggregate(tb: Toolbox, config: Value, cellType: string, inFiles: seq<Value>,
                     counts: seq<Value>, curr: seq<Value>): (t: Trace<Effect, seq<Value>>)
    ensures t.result.Ok? ==> t.result.value == curr && ResultsDir(config).Ok?
    ensures t.result.Ok? ==>
              && |t.effects| == 2
              && t.effects[0] == CombineCounts(counts, inFiles, CountsPath(ResultsDir(config).value, cellType))
              && t.effects[1].WriteTable? && t.effects[1].outFile == RpkmPath(ResultsDir(config).value, cellType)
    ensures forall e :: e in t.effects ==> ArtifactOf(e, config, cellType, inFiles)
  {
    match ResultsDir(config)
    case Err(e) => Trace([], Err(e))
    case Ok(results) =>
      var countsFile := CountsPath(results, cellType);
      match tb.combineCounts(counts, inFiles, countsFile)
      case Err(e) => Trace([], Err(e))
      case Ok(combined) =>
        var written := [CombineCounts(counts, inFiles, countsFile)];
        match Annotation(config)
        case Err(e) => Trace(written, Err(e))
        case Ok(annotation) =>
          match tb.calculateRpkm(combined, annotation)
          case Err(e) => Trace(written, Err(e))
          case Ok(table) => Trace(written + [WriteTable(table, RpkmPath(results, cellType))], Ok(curr))
  }

  /** `e` is one of the two artifacts of the counting stage of `cellType`:
      the combined counts, labelled by the original input files, or the RPKM
      table, both under the results directory of `config`. */
  predicate ArtifactOf(e: Effect, config: Value, cellType: string, inFiles: seq<Value>)
  {
    && ResultsDir(config).Ok?
    && ((e.CombineCounts? && e.columns == inFiles && e.outFile == CountsPath(ResultsDir(config).value, cellType))
        || (e.WriteTable? && e.outFile == RpkmPath(ResultsDir(config).value, cellType)))
  }

  /** `e` is a map dispatch whose every call receives `config` among the
      constant arguments after its file. */
  predicate CarriesConfig(e: Effect, config: Value)
  {
    e.Dispatch? && forall u :: u in e.units ==> |u| >= 1 && config in u[1..]
  }

  /** A map over the per-file tuples hands every call each constant. */
  lemma DispatchCarries(tool: Tool, curr: seq<Value>, consts: seq<Value>, config: Value)
    requires config in consts
    ensures CarriesConfig(Dispatch(tool, Tuples(curr, consts)), config)
  {
    var units := Tuples(curr, consts);
    forall u | u in units ensures |u| >= 1 && config in u[1..] {
      var i :| 0 <= i < |units| && units[i] == u;
      assert u[1..] == consts;
    }
  }

  /** The stage names the driver acts on. */
  predicate KnownStage(stage: Value)
  {
    stage == VStr("fastqc") || stage == VStr("cutadapt") || stage == VStr("tophat") || stage == VStr("htseq-count")
  }

  /** The stages that replace the working file list with their outputs. */
  predicate ReplacingStage(stage: Value)
  {
    stage == VStr("cutadapt") || stage == VStr("tophat")
  }

  /** The constant arguments a mapped stage passes after the file. */
  function StageConsts(config: Value, stage: Value): seq<Value>
    requires ReplacingStage(stage) ==> HasStage(config, stage.s)
    requires stage == VStr("tophat") ==> "ref" in config.entries
  {
    if stage == VStr("tophat") then [VNone, config.entries["ref"], VStr("tophat"), config]
    else if stage == VStr("cutadapt") then [config.entries["stage"].entries["cutadapt"], config]
    else []
  }

  /** One pass of the stage loop's body for the stage named `stage`. */
  function StageStep(tb: Toolbox, config: Value, cellType: string, inFiles: seq<Value>,
                     curr: seq<Value>, stage: Value): (t: Trace<Effect, seq<Value>>)
    ensures !KnownStage(stage) ==> t == Trace([], Ok(curr))
    ensures t.result.Ok? && !ReplacingStage(stage) ==> t.result.value == curr
    ensures t.result.Ok? && ReplacingStage(stage) ==>
      && HasStage(config, stage.s) && (stage == VStr("tophat") ==> "ref" in config.entries)
      && |t.result.value| == |curr|
      && forall i :: 0 <= i < |curr| ==>
           tb.run(ReplacingTool(stage), [curr[i]] + StageConsts(config, stage)) == Ok(t.result.value[i])
  {
    if stage == VStr("fastqc") then
      match StageConfig(config, "fastqc")
      case Err(e) => Trace([], Err(e))
      case Ok(options) =>
        var m := MapStage(tb, FastQC, curr, [options, config]);
        Trace(m.effects, if m.result.Ok? then Ok(curr) else Err(m.result.error))
    else if stage == VStr("cutadapt") then
      match StageConfig(config, "cutadapt")
      case Err(e) => Trace([], Err(e))
      case Ok(options) =>
        MapStage(tb, Cutadapt, curr, [options, config])
    else if stage == VStr("tophat") then
      match StageConfig(config, "tophat")
      case Err(e) => Trace([], Err(e))
      case Ok(_) =>
        match GetItem(config, "ref")
        case Err(e) => Trace([], Err(e))
        case Ok(reference) =>
          MapStage(tb, Tophat, curr, [VNone, reference, VStr("tophat"), config])
    else if stage == VStr("htseq-count") then
      match StageConfig(config, "htseq-count")
      case Err(e) => Trace([], Err(e))
      case Ok(_) =>
        var m := MapStage(tb, HtseqCount, curr, [config, stage]);
        if m.result.Err? then Trace(m.effects, Err(m.result.error))
        else Then(m.effects, Aggregate(tb, config, cellType, inFiles, m.result.value, curr))
    else
      Trace([], Ok(curr))
  }

  /** The stage loop: each stage in turn, threading the working file list;
      the first exception ends the loop. */
  function RunStages(tb: Toolbox, config: Value, cellType: string, inFiles: seq<Value>,
                     curr: seq<Value>, stages: seq<Value>): (t: Trace<Effect, seq<Value>>)
    ensures stages == [] ==> t == Trace([], Ok(curr))
    ensures t.result.Ok? ==> |t.result.value| == |curr|
    decreases |stages|
  {
    if stages == [] then Trace([], Ok(curr))
    else
      var step := StageStep(tb, config, cellType, inFiles, curr, stages[0]);
      if step.result.Err? then Trace(step.effects, Err(step.result.error))
      else Then(step.effects, RunStages(tb, config, cellType, inFiles, step.result.value, stages[1..]))
  }

  // ---------------------------------------------------------------------
  // One cell type and the whole run

  /** An absolute cell type is joined onto a results root that is not a
      string at all (a `results:` entry left empty in the YAML file). */
  lemma AbsoluteCellTypeIgnoresRoot()
    ensures JoinValues(VNone, VStr("/scratch/k562")) == Ok("/scratch/k562")
    ensures JoinValues(VNone, VStr("k562")).Err?
  {
  }

  /** `glob.glob(os.path.join(config["dir"]["data"], cell_type, "*"))`; the
      directory listing is the `glob` parameter. The data directory must be
      a string unless the cell type is an absolute path. */
  function InputFiles(glob: string -> seq<string>, config: Value, cellType: string): (r: Result<seq<Value>>)
    ensures r.Ok? <==> && config.VDict? && "dir" in config.entries && config.entries["dir"].VDict?
                       && "data" in config.entries["dir"].entries
                       && (IsAbsolute(cellType) || config.entries["dir"].entries["data"].VStr?)
    ensures r.Ok? && IsAbsolute(cellType) ==> r.value == StrValues(glob(Join(cellType, "*")))
    ensures r.Ok? && config.entries["dir"].entries["data"].VStr? ==>
              r.value == StrValues(glob(JoinAll(config.entries["dir"].entries["data"].s, [cellType, "*"])))
  {
    var dirs :- GetItem(config, "dir");
    var data :- GetItem(dirs, "data");
    var cellDir :- JoinValues(data, VStr(cellType));
    var pattern := Join(cellDir, "*");
    assert data.VStr? ==> pattern == JoinAll(data.s, [cellType, "*"]) by {
      if data.VStr? { JoinTwo(data.s, cellType, "*"); }
    }
    Ok(StrValues(glob(pattern)))
  }

  /** One iteration of the cell-type loop, starting from the configuration
      as loaded: the results directory becomes `<root>/<cell type>` and the
      working list starts as the cell type's own input files. */
  function CellTypeRun(tb: Toolbox, glob: string -> seq<string>, config0: Value, root: Value,
                       cellType: Value): Trace<Effect, seq<Value>>
    requires HasDirs(config0)
  {
    match JoinValues(root, cellType)
    case Err(e) => Trace([], Err(e))
    case Ok(cellDir) =>
      var config := SetResults(config0, cellDir);
      InputFilesIgnoreResults(glob, config0, cellDir, cellType.s);
      match InputFiles(glob, config, cellType.s)
      case Err(e) => Trace([MakeDir(cellDir)], Err(e))
      case Ok(inFiles) =>
        match GetItem(config, "run")
        case Err(e) => Trace([MakeDir(cellDir)], Err(e))
        case Ok(run) =>
          match AsList(run)
          case Err(e) => Trace([MakeDir(cellDir)], Err(e))
          case Ok(stages) => Then([MakeDir(cellDir)], RunStages(tb, config, cellType.s, inFiles, inFiles, stages))
  }

  /** A cell type has no effect iff its directory cannot be joined, and then
      it raises; otherwise its first effect makes that directory; on success
      the final file list has one entry per input file of the cell type. */
  lemma CellTypeRunShape(tb: Toolbox, glob: string -> seq<string>, config0: Value, root: Value, cellType: Value)
    requires HasDirs(config0)
    ensures var t := CellTypeRun(tb, glob, config0, root, cellType);
      && (t.effects == [] <==> JoinValues(root, cellType).Err?)
      && (JoinValues(root, cellType).Err? ==> t.result.Err?)
      && (t.effects != [] ==> t.effects[0] == MakeDir(JoinValues(root, cellType).value))
      && (t.result.Ok? ==> && cellType.VStr? && InputFiles(glob, config0, cellType.s).Ok?
                           && |t.result.value| == |InputFiles(glob, config0, cellType.s).value|)
  {
    match JoinValues(root, cellType)
    case Err(_) =>
    case Ok(cellDir) =>
      InputFilesIgnoreResults(glob, config0, cellDir, cellType.s);
  }

  /** A cell type that succeeds has made its directory. */
  lemma CellTypeRunActs(tb: Toolbox, glob: string -> seq<string>, config0: Value, root: Value, cellType: Value)
    requires HasDirs(config0)
    ensures CellTypeRun(tb, glob, config0, root, cellType).result.Ok? ==>
              CellTypeRun(tb, glob, config0, root, cellType).effects != []
  {
  }

  /** The cell-type loop: the cell types in order; the first exception ends the run. */
  function RunCellTypes(tb: Toolbox, glob: string -> seq<string>, config0: Value, root: Value,
                        cellTypes: seq<Value>): (r: Trace<Effect, ()>)
    requires HasDirs(config0)
    ensures r.result.Ok? ==> |r.effects| >= |cellTypes|
    decreases |cellTypes|
  {
    if cellTypes == [] then Trace([], Ok(()))
    else
      var t := CellTypeRun(tb, glob, config0, root, cellTypes[0]);
      CellTypeRunActs(tb, glob, config0, root, cellTypes[0]);
      if t.result.Err? then Trace(t.effects, Err(t.result.error))
      else Then(t.effects, RunCellTypes(tb, glob, config0, root, cellTypes[1..]))
  }

  /** The cell-type loop succeeds iff every cell type's run does; when it
      fails, its exception is that of the first failing cell type, all
      cell types before it having succeeded. */
  lemma {:induction false} CellTypesOutcome(tb: Toolbox, glob: string -> seq<string>, config0: Value, root: Value,
                                            cellTypes: seq<Value>)
    requires HasDirs(config0)
    ensures var r := RunCellTypes(tb, glob, config0, root, cellTypes);
      && (r.result.Ok? <==>
            forall k :: 0 <= k < |cellTypes| ==> CellTypeRun(tb, glob, config0, root, cellTypes[k]).result.Ok?)
      && (r.result.Err? ==>
            exists k :: && 0 <= k < |cellTypes|
                        && CellTypeRun(tb, glob, config0, root, cellTypes[k]).result == Err(r.result.error)
                        && forall i :: 0 <= i < k ==> CellTypeRun(tb, glob, config0, root, cellTypes[i]).result.Ok?)
  {
    CellTypesSucceed(tb, glob, config0, root, cellTypes);
    CellTypesFirstFailure(tb, glob, config0, root, cellTypes);
  }

  lemma {:induction false} CellTypesSucceed(tb: Toolbox, glob: string -> seq<string>, config0: Value, root: Value,
                                            cellTypes: seq<Value>)
    requires HasDirs(config0)
    ensures RunCellTypes(tb, glob, config0, root, cellTypes).result.Ok? <==>
            forall k :: 0 <= k < |cellTypes| ==> CellTypeRun(tb, glob, config0, root, cellTypes[k]).result.Ok?
    decreases |cellTypes|
  {
    if cellTypes != [] && CellTypeRun(tb, glob, config0, root, cellTypes[0]).result.Ok? {
      CellTypesSucceed(tb, glob, config0, root, cellTypes[1..]);
      assert forall k :: 1 <= k < |cellTypes| ==> cellTypes[1..][k - 1] == cellTypes[k];
    }
  }

  lemma {:induction false} CellTypesFirstFailure(tb: Toolbox, glob: string -> seq<string>, config0: Value,
                                                 root: Value, cellTypes: seq<Value>)
    requires HasDirs(config0)
    ensures var r := RunCellTypes(tb, glob, config0, root, cellTypes);
      r.result.Err? ==>
        exists k :: && 0 <= k < |cellTypes|
                    && CellTypeRun(tb, glob, config0, root, cellTypes[k]).result == Err(r.result.error)
                    && forall i :: 0 <= i < k ==> CellTypeRun(tb, glob, config0, root, cellTypes[i]).result.Ok?
    decreases |cellTypes|
  {
    var r := RunCellTypes(tb, glob, config0, root, cellTypes);
    if cellTypes != [] && r.result.Err? {
      var first := CellTypeRun(tb, glob, config0, root, cellTypes[0]);
      if first.result.Err? {
        assert r.result == Err(first.result.error);
      } else {
        var tail := cellTypes[1..];
        assert r.result == RunCellTypes(tb, glob, config0, root, tail).result;
        CellTypesFirstFailure(tb, glob, config0, root, tail);
        var k :| && 0 <= k < |tail|
                 && CellTypeRun(tb, glob, config0, root, tail[k]).result == Err(r.result.error)
                 && forall i :: 0 <= i < k ==> CellTypeRun(tb, glob, config0, root, tail[i]).result.Ok?;
        var succeeds := c => CellTypeRun(tb, glob, config0, root, c).result.Ok?;
        assert cellTypes[k + 1] == tail[k];
        PrefixHolds(cellTypes, succeeds, k);
      }
    }
  }

  /** A property of the head and of the first `k` elements of the tail
      holds of the first `k + 1` elements. */
  lemma PrefixHolds<T>(xs: seq<T>, p: T -> bool, k: nat)
    requires k < |xs| && p(xs[0])
    requires forall i :: 0 <= i < k ==> p(xs[1..][i])
    ensures forall i :: 0 <= i < k + 1 ==> p(xs[i])
  {
    forall i | 0 <= i < k + 1 ensures p(xs[i]) {
      if i > 0 {
        assert xs[i] == xs[1..][i - 1];
      }
    }
  }

  /** `map(safe_makedir, config["dir"].values())`: `safe_makedir` passes
      over an empty entry and hands any other to `os.path.exists`, which
      raises TypeError for anything but a string. */
  predicate DirsCreatable(dirs: Value)
    requires dirs.VDict?
  {
    forall k :: k in dirs.entries && Truthy(dirs.entries[k]) ==> dirs.entries[k].VStr?
  }

  /** What `main` needs before its cell-type loop: a `dir` mapping whose
      directories can be created, an `encode_file` entry and a list of cell
      types. */
  predicate Runnable(config: Value)
  {
    && HasDirs(config) && DirsCreatable(config.entries["dir"]) && "encode_file" in config.entries
    && "cell_types" in config.entries && config.entries["cell_types"].VList?
  }

  /** `config["dir"].get("results", "results")`. */
  function ResultsRoot(config: Value): (root: Value)
    requires HasDirs(config)
    ensures "results" !in config.entries["dir"].entries ==> root == VStr("results")
  {
    Get(config.entries["dir"], "results", VStr("results")).value
  }

  /** `main` after the configuration is loaded: the directory mapping and the
      manifest entry must exist, the results root is read once, then the
      cell types are run in order. */
  function PipelineRun(tb: Toolbox, glob: string -> seq<string>, config: Value): (t: Trace<Effect, ()>)
    ensures !Runnable(config) ==> t.effects == [] && t.result.Err?
    ensures HasDirs(config) && !DirsCreatable(config.entries["dir"]) ==> t == Trace([], Err(TypeError))
    ensures Runnable(config) ==>
              t == RunCellTypes(tb, glob, config, ResultsRoot(config), config.entries["cell_types"].items)
  {
    match GetItem(config, "dir")
    case Err(e) => Trace([], Err(e))
    case Ok(dirs) =>
      if !dirs.VDict? || !DirsCreatable(dirs) then Trace([], Err(TypeError))
      else
        match GetItem(config, "encode_file")
        case Err(e) => Trace([], Err(e))
        case Ok(_) =>
          var root := ResultsRoot(config);
          match GetItem(config, "cell_types")
          case Err(e) => Trace([], Err(e))
          case Ok(cellTypes) =>
            match AsList(cellTypes)
            case Err(e) => Trace([], Err(e))
            case Ok(cellTypeList) => RunCellTypes(tb, glob, config, root, cellTypeList)
  }

  /** A directory entry that is neither empty nor a string, such as
      `threads: 5`, stops `main` at line 86 before any cell type runs;
      an empty entry is passed over. */
  lemma NonStringDirEntryRaises(tb: Toolbox, glob: string -> seq<string>)
    ensures var dirs := VDict(map["data" := VStr("/abs/data"), "results" := VStr("r"), "threads" := VInt(5)]);
            var config := VDict(map["dir" := dirs, "encode_file" := VStr("encode.csv"),
                                    "cell_types" := VList([VStr("/abs/k562")]), "run" := VList([])]);
            PipelineRun(tb, glob, config) == Trace([], Err(TypeError))
    ensures DirsCreatable(VDict(map["data" := VStr("/abs/data"), "threads" := VInt(0)]))
  {
    var dirs := VDict(map["data" := VStr("/abs/data"), "results" := VStr("r"), "threads" := VInt(5)]);
    assert "threads" in dirs.entries && Truthy(dirs.entries["threads"]);
  }

  // ---------------------------------------------------------------------
  // The driver as the script runs it

  /** The body of the stage loop: the four `if stage == ...` blocks. */
  method DispatchStage(tb: Toolbox, config: Value, cellType: string, inFiles: seq<Value>,
                       currFiles: seq<Value>, stage: Value)
    returns (effects: seq<Effect>, next: Result<seq<Value>>)
    ensures Trace(effects, next) == StageStep(tb, config, cellType, inFiles, currFiles, stage)
  {
    effects, next := [], Ok(currFiles);
    if stage == VStr("fastqc") {
      var options := StageConfig(config, "fastqc");
      if options.Err? { return [], Err(options.error); }
      var args := ArgColumns(currFiles, [options.value, config]);
      ArgColumnsShape(currFiles, [options.value, config]);
      effects := [Dispatch(FastQC, Units(args))];
      var outputs := ParallelMap(tb.run, FastQC, args);
      if outputs.Err? { return effects, Err(outputs.error); }
    }
    if stage == VStr("cutadapt") {
      var options := StageConfig(config, "cutadapt");
      if options.Err? { return [], Err(options.error); }
      var args := ArgColumns(currFiles, [options.value, config]);
      ArgColumnsShape(currFiles, [options.value, config]);
      effects := [Dispatch(Cutadapt, Units(args))];
      next := ParallelMap(tb.run, Cutadapt, args);
    }
    if stage == VStr("tophat") {
      var options := StageConfig(config, "tophat");
      if options.Err? { return [], Err(options.error); }
      var reference := GetItem(config, "ref");
      if reference.Err? { return [], Err(reference.error); }
      var args := ArgColumns(currFiles, [VNone, reference.value, VStr("tophat"), config]);
      ArgColumnsShape(currFiles, [VNone, reference.value, VStr("tophat"), config]);
      effects := [Dispatch(Tophat, Units(args))];
      next := ParallelMap(tb.run, Tophat, args);
    }
    if stage == VStr("htseq-count") {
      effects, next := HtseqCountStage(tb, config, cellType, inFiles, currFiles);
    }
  }

  /** The `htseq-count` block: count every file, then combine the counts
      under the original input names and write the RPKM table. */
  method HtseqCountStage(tb: Toolbox, config: Value, cellType: string, inFiles: seq<Value>, currFiles: seq<Value>)
    returns (effects: seq<Effect>, next: Result<seq<Value>>)
    ensures Trace(effects, next) == StageStep(tb, config, cellType, inFiles, currFiles, VStr("htseq-count"))
  {
    var stage := VStr("htseq-count");
    var options := StageConfig(config, "htseq-count");
    if options.Err? { return [], Err(options.error); }
    var args := ArgColumns(currFiles, [config, stage]);
    ArgColumnsShape(currFiles, [config, stage]);
    effects := [Dispatch(HtseqCount, Units(args))];
    var outputs := ParallelMap(tb.run, HtseqCount, args);
    assert MapStage(tb, HtseqCount, currFiles, [config, stage]) == Trace(effects, outputs);
    if outputs.Err? { return effects, Err(outputs.error); }
    ghost var aggregate := Aggregate(tb, config, cellType, inFiles, outputs.value, currFiles);
    assert StageStep(tb, config, cellType, inFiles, currFiles, stage) == Then(effects, aggregate);
    var results := ResultsDir(config);
    if results.Err? { return effects, Err(results.error); }
    var countsFile := CountsPath(results.value, cellType);
    var combined := tb.combineCounts(outputs.value, inFiles, countsFile);
    if combined.Err? { return effects, Err(combined.error); }
    var written := [CombineCounts(outputs.value, inFiles, countsFile)];
    var annotation := Annotation(config);
    if annotation.Err? { return effects + written, Err(annotation.error); }
    var rpkm := tb.calculateRpkm(combined.value, annotation.value);
    if rpkm.Err? { return effects + written, Err(rpkm.error); }
    assert aggregate.effects == written + [WriteTable(rpkm.value, RpkmPath(results.value, cellType))];
    effects := effects + (written + [WriteTable(rpkm.value, RpkmPath(results.value, cellType))]);
    next := Ok(currFiles);
  }

  /** The body of the cell-type loop: make `<root>/<cell type>`, point the
      configuration's results directory at it, list the cell type's input
      files and run the stage loop from them. */
  method EnterCellType(tb: Toolbox, glob: string -> seq<string>, config: Value, root: Value, cellType: Value)
    returns (newConfig: Value, effects: seq<Effect>, result: Result<seq<Value>>, cellDir: string)
    requires HasDirs(config)
    ensures Trace(effects, result) == CellTypeRun(tb, glob, config, root, cellType)
    ensures result.Ok? ==> newConfig == SetResults(config, cellDir)
  {
    newConfig, cellDir := config, "";
    var dir := JoinValues(root, cellType);
    if dir.Err? { return config, [], Err(dir.error), ""; }
    cellDir := dir.value;
    effects := [MakeDir(cellDir)];
    newConfig := SetResults(config, cellDir);
    var inFiles := InputFiles(glob, newConfig, cellType.s);
    if inFiles.Err? { return newConfig, effects, Err(inFiles.error), cellDir; }
    var runValue := GetItem(newConfig, "run");
    if runValue.Err? { return newConfig, effects, Err(runValue.error), cellDir; }
    var stages := AsList(runValue.value);
    if stages.Err? { return newConfig, effects, Err(stages.error), cellDir; }
    var stageEffects, final := ThreadStages(tb, newConfig, cellType.s, inFiles.value, stages.value);
    effects := effects + stageEffects;
    result := final;
  }

  /** A cell type's run does not depend on the results directory left in
      the configuration by the cell types before it. */
  lemma CellTypeRunIgnoresPrevious(tb: Toolbox, glob: string -> seq<string>, config0: Value, previous: string,
                                   root: Value, cellType: Value)
    requires HasDirs(config0)
    ensures CellTypeRun(tb, glob, SetResults(config0, previous), root, cellType)
            == CellTypeRun(tb, glob, config0, root, cellType)
  {
    var dir := JoinValues(root, cellType);
    if dir.Ok? {
      SetResultsOverwrite(config0, previous, dir.value);
    }
  }

  /** `main`: the loop over cell types. The configuration is a local value
      whose results directory each cell type overwrites, as the script does
      in place; the results root is read once, before the loop. */
  method RunPipeline(tb: Toolbox, glob: string -> seq<string>, config0: Value)
    returns (effects: seq<Effect>, result: Result<()>)
    ensures Trace(effects, result) == PipelineRun(tb, glob, config0)
  {
    var dirs := GetItem(config0, "dir");
    if dirs.Err? { return [], Err(dirs.error); }
    if !dirs.value.VDict? || !DirsCreatable(dirs.value) { return [], Err(TypeError); }
    var encodeFile := GetItem(config0, "encode_file");
    if encodeFile.Err? { return [], Err(encodeFile.error); }
    var root := Get(dirs.value, "results", VStr("results")).value;
    var cellTypesValue := GetItem(config0, "cell_types");
    if cellTypesValue.Err? { return [], Err(cellTypesValue.error); }
    var cellTypes := AsList(cellTypesValue.value);
    if cellTypes.Err? { return [], Err(cellTypes.error); }
    var all := cellTypes.value;
    assert PipelineRun(tb, glob, config0) == RunCellTypes(tb, glob, config0, root, all);
    effects, result := CellTypeLoop(tb, glob, config0, root, all);
  }

  /** `for cell_type in config["cell_types"]`: each cell type in turn runs
      under the configuration the previous one left behind, and the first
      exception ends the loop. */
  method CellTypeLoop(tb: Toolbox, glob: string -> seq<string>, config0: Value, root: Value, all: seq<Value>)
    returns (effects: seq<Effect>, result: Result<()>)
    requires HasDirs(config0)
    ensures Trace(effects, result) == RunCellTypes(tb, glob, config0, root, all)
  {
    var config := config0;
    ghost var whole := RunCellTypes(tb, glob, config0, root, all);
    effects := [];
    var k := 0;
    ghost var previous: Option<string> := None;
    while k < |all|
      invariant 0 <= k <= |all|
      invariant config == if previous.None? then config0 else SetResults(config0, previous.value)
      invariant Then(effects, RunCellTypes(tb, glob, config0, root, all[k..])) == whole
    {
      CellTypesAdvance(tb, glob, config0, root, all, k, effects);
      ghost var t := CellTypeRun(tb, glob, config0, root, all[k]);
      if previous.Some? {
        CellTypeRunIgnoresPrevious(tb, glob, config0, previous.value, root, all[k]);
      }
      assert CellTypeRun(tb, glob, config, root, all[k]) == t;
      var cellEffects, final, cellDir;
      config, cellEffects, final, cellDir := EnterCellType(tb, glob, config, root, all[k]);
      assert cellEffects == t.effects && final == t.result;
      effects := effects + cellEffects;
      if final.Err? {
        assert Then(effects, Trace([], Err(final.error))) == whole;
        return effects, Err(final.error);
      }
      if previous.Some? {
        SetResultsOverwrite(config0, previous.value, cellDir);
      }
      previous := Some(cellDir);
      k := k + 1;
    }
    assert all[k..] == [];
    assert Then(effects, Trace([], Ok(()))) == whole;
    result := Ok(());
  }

  /** The stage loop of one cell type: the working list starts as the cell
      type's input files and each stage's outcome is threaded into the next. */
  method ThreadStages(tb: Toolbox, config: Value, cellType: string, inFiles: seq<Value>, stages: seq<Value>)
    returns (effects: seq<Effect>, result: Result<seq<Value>>)
    ensures Trace(effects, result) == RunStages(tb, config, cellType, inFiles, inFiles, stages)
  {
    var currFiles := inFiles;
    effects := [];
    var i := 0;
    while i < |stages|
      invariant 0 <= i <= |stages|
      invariant Then(effects, RunStages(tb, config, cellType, inFiles, currFiles, stages[i..]))
                == RunStages(tb, config, cellType, inFiles, inFiles, stages)
    {
      var stageEffects, next := DispatchStage(tb, config, cellType, inFiles, currFiles, stages[i]);
      StageAdvance(tb, config, cellType, inFiles, currFiles, stages, i, effects);
      effects := effects + stageEffects;
      if next.Err? { return effects, Err(next.error); }
      currFiles := next.value;
      i := i + 1;
    }
    assert stages[i..] == [];
    assert effects + [] == effects;
    return effects, Ok(currFiles);
  }

  /** One turn of the stage loop: the effects so far followed by the rest
      of the loop equal the effects so far and this stage's effects
      followed by the loop after it, or end with this stage's exception. */
  lemma StageAdvance(tb: Toolbox, config: Value, cellType: string, inFiles: seq<Value>,
                     curr: seq<Value>, stages: seq<Value>, i: nat, effects: seq<Effect>)
    requires i < |stages|
    ensures var step := StageStep(tb, config, cellType, inFiles, curr, stages[i]);
      var rest := RunStages(tb, config, cellType, inFiles, curr, stages[i..]);
      Then(effects, rest)
      == if step.result.Err? then Trace(effects + step.effects, Err(step.result.error))
         else Then(effects + step.effects, RunStages(tb, config, cellType, inFiles, step.result.value, stages[i + 1..]))
  {
    StagesUnfold(tb, config, cellType, inFiles, curr, stages, i);
    var step := StageStep(tb, config, cellType, inFiles, curr, stages[i]);
    if step.result.Ok? {
      var after := RunStages(tb, config, cellType, inFiles, step.result.value, stages[i + 1..]);
      assert (effects + step.effects) + after.effects == effects + (step.effects + after.effects);
    }
  }

  /** One turn of the cell-type loop, in the same form as `StageAdvance`. */
  lemma CellTypesAdvance(tb: Toolbox, glob: string -> seq<string>, config0: Value, root: Value,
                         cellTypes: seq<Value>, k: nat, effects: seq<Effect>)
    requires HasDirs(config0) && k < |cellTypes|
    ensures var t := CellTypeRun(tb, glob, config0, root, cellTypes[k]);
      Then(effects, RunCellTypes(tb, glob, config0, root, cellTypes[k..]))
      == if t.result.Err? then Trace(effects + t.effects, Err(t.result.error))
         else Then(effects + t.effects, RunCellTypes(tb, glob, config0, root, cellTypes[k + 1..]))
  {
    CellTypesUnfold(tb, glob, config0, root, cellTypes, k);
    var t := CellTypeRun(tb, glob, config0, root, cellTypes[k]);
    if t.result.Ok? {
      var after := RunCellTypes(tb, glob, config0, root, cellTypes[k + 1..]);
      assert (effects + t.effects) + after.effects == effects + (t.effects + after.effects);
    }
  }

  lemma CellTypesUnfold(tb: Toolbox, glob: string -> seq<string>, config0: Value, root: Value,
                        cellTypes: seq<Value>, k: nat)
    requires HasDirs(config0) && k < |cellTypes|
    ensures var t := CellTypeRun(tb, glob, config0, root, cellTypes[k]);
      RunCellTypes(tb, glob, config0, root, cellTypes[k..])
      == if t.result.Err? then Trace(t.effects, Err(t.result.error))
         else Then(t.effects, RunCellTypes(tb, glob, config0, root, cellTypes[k + 1..]))
  {
    assert cellTypes[k..][0] == cellTypes[k];
    assert cellTypes[k..][1..] == cellTypes[k + 1..];
  }

  lemma StagesUnfold(tb: Toolbox, config: Value, cellType: string, inFiles: seq<Value>,
                     curr: seq<Value>, stages: seq<Value>, i: nat)
    requires i < |stages|
    ensures var step := StageStep(tb, config, cellType, inFiles, curr, stages[i]);
      RunStages(tb, config, cellType, inFiles, curr, stages[i..])
      == if step.result.Err? then Trace(step.effects, Err(step.result.error))
         else Then(step.effects, RunStages(tb, config, cellType, inFiles, step.result.value, stages[i + 1..]))
  {
    assert stages[i..][0] == stages[i];
    assert stages[i..][1..] == stages[i + 1..];
  }

  // ---------------------------------------------------------------------
  // What the stage loop promises

  /** The tool of a stage that replaces the working file list. */
  function ReplacingTool(stage: Value): Tool
  {
    if stage == VStr("tophat") then Tophat else Cutadapt
  }

  /** What the replacing stages of `stages` make of one file on its own:
      each such stage's tool applied to the file and that stage's constants,
      in stage order; `None` when a tool fails or its configuration entry
      is missing. The other stages leave the file alone. */
  function FileThrough(tb: Toolbox, config: Value, file: Value, stages: seq<Value>): Option<Value>
    decreases |stages|
  {
    if stages == [] then Some(file)
    else
      var stage := stages[0];
      if !ReplacingStage(stage) then FileThrough(tb, config, file, stages[1..])
      else if !HasStage(config, stage.s) || (stage == VStr("tophat") && "ref" !in config.entries) then None
      else
        match tb.run(ReplacingTool(stage), [file] + StageConsts(config, stage))
        case Err(_) => None
        case Ok(out) => FileThrough(tb, config, out, stages[1..])
  }

  /** The stage loop works file by file and keeps the order: when it
      succeeds, the final list has one entry per starting file, and entry i
      is what the replacing stages make of starting file i. */
  lemma {:induction false} StagesArePointwise(tb: Toolbox, config: Value, cellType: string, inFiles: seq<Value>,
                                              curr: seq<Value>, stages: seq<Value>)
    ensures var t := RunStages(tb, config, cellType, inFiles, curr, stages);
      t.result.Ok? ==>
        && |t.result.value| == |curr|
        && forall i :: 0 <= i < |curr| ==> FileThrough(tb, config, curr[i], stages) == Some(t.result.value[i])
    decreases |stages|
  {
    if stages != [] {
      var step := StageStep(tb, config, cellType, inFiles, curr, stages[0]);
      if step.result.Ok? {
        var next := step.result.value;
        StagesArePointwise(tb, config, cellType, inFiles, next, stages[1..]);
        forall i | 0 <= i < |curr|
          ensures FileThrough(tb, config, curr[i], stages) == FileThrough(tb, config, next[i], stages[1..])
        {
        }
      }
    }
  }

  /** A run list without `cutadapt` or `tophat` hands on the working file
      list unchanged when it succeeds (`fastqc`, `htseq-count` and unknown
      stages do not reassign it). */
  lemma {:induction false} NonReplacingStagesKeepFiles(tb: Toolbox, config: Value, cellType: string,
                                                       inFiles: seq<Value>, curr: seq<Value>, stages: seq<Value>)
    requires forall k :: 0 <= k < |stages| ==> !ReplacingStage(stages[k])
    ensures var t := RunStages(tb, config, cellType, inFiles, curr, stages);
      t.result.Ok? ==> t.result.value == curr
    decreases |stages|
  {
    if stages != [] {
      var step := StageStep(tb, config, cellType, inFiles, curr, stages[0]);
      assert !ReplacingStage(stages[0]);
      if step.result.Ok? {
        assert forall k :: 0 <= k < |stages[1..]| ==> stages[1..][k] == stages[k + 1];
        NonReplacingStagesKeepFiles(tb, config, cellType, inFiles, curr, stages[1..]);
      }
    }
  }

  /** A stage name the driver does not act on (`trim`, `download_encode`,
      a typo) is skipped: deleting it from the run list changes nothing. */
  lemma {:induction false} UnknownStageSkipped(tb: Toolbox, config: Value, cellType: string, inFiles: seq<Value>,
                                               curr: seq<Value>, before: seq<Value>, stage: Value, after: seq<Value>)
    requires !KnownStage(stage)
    ensures RunStages(tb, config, cellType, inFiles, curr, before + [stage] + after)
            == RunStages(tb, config, cellType, inFiles, curr, before + after)
    decreases |before|
  {
    var full := before + [stage] + after;
    if before == [] {
      assert full[0] == stage && full[1..] == after;
      assert before + after == after;
    } else {
      var step := StageStep(tb, config, cellType, inFiles, curr, before[0]);
      assert full[0] == before[0] && full[1..] == before[1..] + [stage] + after;
      assert (before + after)[0] == before[0] && (before + after)[1..] == before[1..] + after;
      if step.result.Ok? {
        UnknownStageSkipped(tb, config, cellType, inFiles, step.result.value, before[1..], stage, after);
      }
    }
  }

  /** Every effect of one stage is a map dispatch that hands each call the
      configuration, or one of the counting stage's two artifacts. */
  lemma StageStepEffects(tb: Toolbox, config: Value, cellType: string, inFiles: seq<Value>,
                         curr: seq<Value>, stage: Value)
    ensures forall e :: e in StageStep(tb, config, cellType, inFiles, curr, stage).effects ==>
              CarriesConfig(e, config) || ArtifactOf(e, config, cellType, inFiles)
  {
    var effects := StageStep(tb, config, cellType, inFiles, curr, stage).effects;
    if stage == VStr("fastqc") && StageConfig(config, "fastqc").Ok? {
      var consts := [StageConfig(config, "fastqc").value, config];
      assert effects == [Dispatch(FastQC, Tuples(curr, consts))];
      DispatchCarries(FastQC, curr, consts, config);
    } else if stage == VStr("cutadapt") && StageConfig(config, "cutadapt").Ok? {
      var consts := [StageConfig(config, "cutadapt").value, config];
      assert effects == [Dispatch(Cutadapt, Tuples(curr, consts))];
      DispatchCarries(Cutadapt, curr, consts, config);
    } else if stage == VStr("tophat") && StageConfig(config, "tophat").Ok? && GetItem(config, "ref").Ok? {
      var consts := [VNone, GetItem(config, "ref").value, VStr("tophat"), config];
      assert effects == [Dispatch(Tophat, Tuples(curr, consts))];
      DispatchCarries(Tophat, curr, consts, config);
    } else if stage == VStr("htseq-count") && StageConfig(config, "htseq-count").Ok? {
      var consts := [config, stage];
      var m := MapStage(tb, HtseqCount, curr, consts);
      DispatchCarries(HtseqCount, curr, consts, config);
      if m.result.Ok? {
        var agg := Aggregate(tb, config, cellType, inFiles, m.result.value, curr);
        assert effects == [Dispatch(HtseqCount, Tuples(curr, consts))] + agg.effects;
      } else {
        assert effects == [Dispatch(HtseqCount, Tuples(curr, consts))];
      }
    } else {
      assert effects == [];
    }
  }

  /** What each known stage dispatches: once its `_get_stage_config` lookup
      succeeds, fastqc, cutadapt and tophat make exactly one map over the
      per-file tuples of the source's constants (fastqc leaving the list as
      it was), and htseq-count maps the counter and then, on success, writes
      the combined counts and the RPKM table of this cell type. A failed
      lookup raises before anything happens. */
  lemma StageStepDispatches(tb: Toolbox, config: Value, cellType: string, inFiles: seq<Value>,
                            curr: seq<Value>, stage: Value)
    ensures var t := StageStep(tb, config, cellType, inFiles, curr, stage);
      && (KnownStage(stage) && StageConfig(config, stage.s).Err? ==>
            t == Trace([], Err(StageConfig(config, stage.s).error)))
      && (stage == VStr("fastqc") && StageConfig(config, "fastqc").Ok? ==>
            && t.effects == [Dispatch(FastQC, Tuples(curr, [StageConfig(config, "fastqc").value, config]))]
            && (t.result.Ok? <==> MapStage(tb, FastQC, curr, [StageConfig(config, "fastqc").value, config]).result.Ok?))
      && (stage == VStr("cutadapt") && StageConfig(config, "cutadapt").Ok? ==>
            t.effects == [Dispatch(Cutadapt, Tuples(curr, [StageConfig(config, "cutadapt").value, config]))])
      && (stage == VStr("tophat") && StageConfig(config, "tophat").Ok? && "ref" in config.entries ==>
            t.effects == [Dispatch(Tophat, Tuples(curr, [VNone, config.entries["ref"], VStr("tophat"), config]))])
      && (stage == VStr("htseq-count") && StageConfig(config, "htseq-count").Ok? ==>
            && t.effects != [] && t.effects[0] == Dispatch(HtseqCount, Tuples(curr, [config, stage])))
      && (stage == VStr("htseq-count") && t.result.Ok? ==>
            && MapStage(tb, HtseqCount, curr, [config, stage]).result.Ok? && ResultsDir(config).Ok?
            && |t.effects| == 3
            && t.effects[1] == CombineCounts(MapStage(tb, HtseqCount, curr, [config, stage]).result.value, inFiles,
                                             CountsPath(ResultsDir(config).value, cellType))
            && t.effects[2].WriteTable? && t.effects[2].outFile == RpkmPath(ResultsDir(config).value, cellType))
  {
    var t := StageStep(tb, config, cellType, inFiles, curr, stage);
    if stage == VStr("htseq-count") && StageConfig(config, "htseq-count").Ok? {
      var m := MapStage(tb, HtseqCount, curr, [config, stage]);
      if m.result.Ok? {
        var agg := Aggregate(tb, config, cellType, inFiles, m.result.value, curr);
        assert t == Then([Dispatch(HtseqCount, Tuples(curr, [config, stage]))], agg);
      } else {
        assert t.effects == [Dispatch(HtseqCount, Tuples(curr, [config, stage]))];
      }
    }
  }

  /** The stage loop creates no directory; every map it dispatches hands
      each call the configuration it runs under, and otherwise it only
      writes the counting stage's two artifacts of its own cell type. */
  lemma {:induction false} StageEffects(tb: Toolbox, config: Value, cellType: string, inFiles: seq<Value>,
                                        curr: seq<Value>, stages: seq<Value>)
    ensures forall e :: e in RunStages(tb, config, cellType, inFiles, curr, stages).effects ==>
              CarriesConfig(e, config) || ArtifactOf(e, config, cellType, inFiles)
    decreases |stages|
  {
    if stages != [] {
      var step := StageStep(tb, config, cellType, inFiles, curr, stages[0]);
      StageStepEffects(tb, config, cellType, inFiles, curr, stages[0]);
      if step.result.Ok? {
        StageEffects(tb, config, cellType, inFiles, step.result.value, stages[1..]);
      }
    }
  }

  // ---------------------------------------------------------------------
  // What the cell-type loop promises

  /** `config["dir"]["data"]` is unaffected by writing the results directory,
      so a cell type's input files are those listed from the loaded
      configuration. */
  lemma InputFilesIgnoreResults(glob: string -> seq<string>, config0: Value, dir: string, cellType: string)
    requires HasDirs(config0)
    ensures InputFiles(glob, SetResults(config0, dir), cellType) == InputFiles(glob, config0, cellType)
  {
    SetResultsKeepsOthers(config0, dir);
  }

  /** One cell type: after creating its directory it creates no other; each
      of its map calls receives the configuration whose results directory is
      `<root>/<cell type>`, and its counting artifacts are the count and
      RPKM paths of that directory and cell type, with its own input files
      as column labels. For a cell type without `/` those paths lie in
      `<root>/<cell type>/htseq-count/`; an absolute cell type's lie beside
      its directory (`AbsoluteCellTypeArtifacts`). */
  lemma CellTypeEffects(tb: Toolbox, glob: string -> seq<string>, config0: Value, root: Value, cellType: Value)
    requires HasDirs(config0)
    ensures var t := CellTypeRun(tb, glob, config0, root, cellType);
      forall j :: 1 <= j < |t.effects| ==> ScopedTo(t.effects[j], glob, config0, root, cellType)
  {
    var t := CellTypeRun(tb, glob, config0, root, cellType);
    if JoinValues(root, cellType).Ok? {
      var cellDir := JoinValues(root, cellType).value;
      var config := SetResults(config0, cellDir);
      InputFilesIgnoreResults(glob, config0, cellDir, cellType.s);
      var inFiles := InputFiles(glob, config, cellType.s);
      var run := GetItem(config, "run");
      if inFiles.Ok? && run.Ok? && AsList(run.value).Ok? {
        var stages := RunStages(tb, config, cellType.s, inFiles.value, inFiles.value, AsList(run.value).value);
        StageEffects(tb, config, cellType.s, inFiles.value, inFiles.value, AsList(run.value).value);
        assert t.effects == [MakeDir(cellDir)] + stages.effects;
      }
    }
  }

  /** An effect of cell type `cellType` after its directory is made: a map
      dispatch whose every call receives the configuration pointed at
      `<root>/<cell type>`, or a counting artifact under that directory
      whose column labels are the cell type's input files. */
  predicate ScopedTo(e: Effect, glob: string -> seq<string>, config0: Value, root: Value, cellType: Value)
    requires HasDirs(config0)
  {
    && JoinValues(root, cellType).Ok?
    && var cellDir := JoinValues(root, cellType).value;
       || CarriesConfig(e, SetResults(config0, cellDir))
       || (e.CombineCounts?
           && InputFiles(glob, config0, cellType.s) == Ok(e.columns)
           && e.outFile == CountsPath(cellDir, cellType.s))
       || (e.WriteTable? && e.outFile == RpkmPath(cellDir, cellType.s))
  }

  /** The cell types before a successful prefix do not influence the ones
      after it: the run of `a + b` is the run of `a` followed by the run of
      `b` on its own. */
  lemma {:induction false} CellTypesIndependent(tb: Toolbox, glob: string -> seq<string>, config0: Value, root: Value,
                                                a: seq<Value>, b: seq<Value>)
    requires HasDirs(config0)
    ensures var ta := RunCellTypes(tb, glob, config0, root, a);
      RunCellTypes(tb, glob, config0, root, a + b)
      == if ta.result.Err? then ta else Then(ta.effects, RunCellTypes(tb, glob, config0, root, b))
    decreases |a|
  {
    if a == [] {
      assert a + b == b;
    } else {
      var t := CellTypeRun(tb, glob, config0, root, a[0]);
      assert (a + b)[0] == a[0] && (a + b)[1..] == a[1..] + b;
      if t.result.Ok? {
        var ta' := RunCellTypes(tb, glob, config0, root, a[1..]);
        CellTypesIndependent(tb, glob, config0, root, a[1..], b);
        if ta'.result.Ok? {
          assert t.effects + (ta'.effects + RunCellTypes(tb, glob, config0, root, b).effects)
                 == (t.effects + ta'.effects) + RunCellTypes(tb, glob, config0, root, b).effects;
        }
      }
    }
  }

  /** The whole run: every directory it makes is `<root>/<cell type>` for a
      listed cell type, with the root read once before the loop; every
      other effect belongs to one listed cell type, and every counting
      artifact is at the count or RPKM path of that cell type's directory
      (under it for a cell type without `/`). */
  lemma {:induction false} RunEffectsScoped(tb: Toolbox, glob: string -> seq<string>, config0: Value, root: Value,
                                            cellTypes: seq<Value>)
    requires HasDirs(config0)
    ensures forall e :: e in RunCellTypes(tb, glob, config0, root, cellTypes).effects ==>
              && (e.MakeDir? ==> exists k :: 0 <= k < |cellTypes| && JoinValues(root, cellTypes[k]) == Ok(e.path))
              && (!e.MakeDir? ==> exists k :: 0 <= k < |cellTypes| && ScopedTo(e, glob, config0, root, cellTypes[k]))
    decreases |cellTypes|
  {
    if cellTypes != [] {
      var t := CellTypeRun(tb, glob, config0, root, cellTypes[0]);
      CellTypeEffects(tb, glob, config0, root, cellTypes[0]);
      RunEffectsScoped(tb, glob, config0, root, cellTypes[1..]);
      var whole := RunCellTypes(tb, glob, config0, root, cellTypes).effects;
      var rest := RunCellTypes(tb, glob, config0, root, cellTypes[1..]).effects;
      forall e | e in whole
        ensures e.MakeDir? ==> exists k :: 0 <= k < |cellTypes| && JoinValues(root, cellTypes[k]) == Ok(e.path)
        ensures !e.MakeDir? ==> exists k :: 0 <= k < |cellTypes| && ScopedTo(e, glob, config0, root, cellTypes[k])
      {
        if e in t.effects {
          var j :| 0 <= j < |t.effects| && t.effects[j] == e;
          if j == 0 {
            assert e == MakeDir(JoinValues(root, cellTypes[0]).value);
          } else {
            assert ScopedTo(e, glob, config0, root, cellTypes[0]);
          }
        } else {
          assert e in rest;
          if e.MakeDir? {
            var k :| 0 <= k < |cellTypes[1..]| && JoinValues(root, cellTypes[1..][k]) == Ok(e.path);
            assert cellTypes[1..][k] == cellTypes[k + 1];
          } else {
            var k :| 0 <= k < |cellTypes[1..]| && ScopedTo(e, glob, config0, root, cellTypes[1..][k]);
            assert cellTypes[1..][k] == cellTypes[k + 1];
          }
        }
      }
    }
  }
}
