# RNA-seq stage driver and shRNA comparison preparation, modelled in Dafny

This project models two small Python scripts from a bioinformatics
repository.

- **The RNA-seq pipeline driver** (`slim_rnaseq/scripts/pipeline.py`).
  - `main` walks the configured cell types. For each one it:
    - points `config["dir"]["results"]` at `<results root>/<cell type>`;
    - starts the working file list from that cell type's own input files;
    - threads the list through the configured `run` stages.
  - What each stage does:
    - `fastqc` runs a tool over the files and keeps the list.
    - `cutadapt` and `tophat` replace the list with the tool's outputs, in order.
    - `htseq-count` writes a combined count table and an RPKM table labelled by the original inputs.
      They go to `<results>/htseq-count/`. There is one quirk: Python 2's `os.path.join` keeps an absolute last part. So an absolute cell type's tables are `<cell type>.combined.counts` and `<cell type>.rpkm.txt`, beside its directory rather than in it.
    - Any other name is skipped.
  - Also modelled: the stage-configuration lookups, the argument columns built with `zip(*product(...))`, the `fastqc` and `trim` helpers, and the manifest field extraction.
- **The shRNA differential-expression preparation** (`ay_linkertrim/bcbio/hbc/shrna/diffexp.py`).
  - The count-table filter (`_prepare_count_file`).
  - The R configuration record (`_prepare_yaml_config`).
  - One comparison with its skip rule (`noreplicate_comparison`).
  - The nested comparison loop (`do_comparisons`).
  - The gene-description annotation (`_add_gene_descriptions`).

How the model is built:

- **Configuration.** The YAML configuration is a dynamic value tree (`PyValues.Value`). Every `config[...]` lookup can therefore raise `KeyError` or `TypeError` where Python would. AttributeError is folded into TypeError. The exceptions listed under "## Left out" are not modelled.
- **Effects.** Each operation's effects are recorded as an ordered trace: directories made, `view.map` dispatches, tables and files written, R script calls. The trace ends with a result or the exception that stopped the script. Effects that happened before the exception stay in the trace.
- **External tools.** Tools, directory listings, the R script and the gene-description lookup are function parameters.
- **Loops.** The loops the scripts run (`main`, `do_comparisons`, and the two row-streaming writers) are Dafny methods with loops. Each is proved equal to a recursive specification function. The properties are then proved about those functions.

Modules:

- `Wrappers` (`wrappers.dfy`): `Option`.
- `Traces` (`traces.dfy`): a trace of effects of some kind and the result that ended it.
- `Text` (`text.dfy`): decimal rendering and parsing, `strip`, `split`/`join`.
- `PyValues` (`py_values.dfy`): values, exceptions, indexing, `get`, `str`, `int`, `list.index`.
- `PosixPath` (`posix_path.dfy`): `os.path.join` on strings and on configuration values, `basename`, `splitext`.
- `Pipeline` (`pipeline.dfy`): the helper functions of `pipeline.py`.
- `PipelineMain` (`pipeline_main.dfy`): `main`.
- `Diffexp` (`diffexp.dfy`): `diffexp.py`.

## Model

| member | source | states |
|---|---|---|
| Pipeline.StageConfig | slim_rnaseq/scripts/pipeline.py:14-15 | returns `config["stage"][stage]` exactly when both levels exist; raises KeyError("stage") or KeyError(stage) for the missing level |
| Pipeline.Program | slim_rnaseq/scripts/pipeline.py:18-19 | returns the stage's `"program"` entry exactly when it exists; KeyError("program") when the stage entry lacks it |
| Pipeline.Tuples | slim_rnaseq/scripts/pipeline.py:106-107 | reference definition, pointwise: tuple i is file i followed by the constant arguments; ProductTuples and ArgColumnsShape tie `product` and the argument columns to it |
| Pipeline.Product | slim_rnaseq/scripts/pipeline.py:106-107 | `itertools.product` yields as many tuples as there are ways to pick one element from each pool |
| Pipeline.ProductChoices | slim_rnaseq/scripts/pipeline.py:106-107 | every tuple of the product picks one element of each pool, in pool order, and every such pick is a tuple of the product |
| Pipeline.Zip | slim_rnaseq/scripts/pipeline.py:106-107 | `zip(*tuples)` transposes: as many columns as the shortest tuple is long, element i of column j is element j of tuple i, and no tuples give no columns |
| Pipeline.ProductTuples | slim_rnaseq/scripts/pipeline.py:106-107 | `product(files, [c1], ..., [cn])` is the list whose i-th tuple is `[files[i], c1, ..., cn]` |
| Pipeline.ZipUnitsRoundTrip | slim_rnaseq/scripts/pipeline.py:106-108 | `zip(*tuples)` of equal-width tuples gives rectangular columns from which `view.map` rebuilds exactly the original tuples |
| Pipeline.ArgColumnsShape | slim_rnaseq/scripts/pipeline.py:106-107 | the argument columns: none for no files; otherwise column 0 is the file list and every other column repeats one constant `len(files)` times; the per-call tuples are `[files[i]] + consts` |
| Pipeline.ColumnsTuples | slim_rnaseq/scripts/pipeline.py:26-28 | the explicit `[cfg] * nfiles` columns give the same per-call tuples as the product form |
| Pipeline.MapUnits | slim_rnaseq/scripts/pipeline.py:26-28 | `view.map` succeeds iff every call does; then output i is the tool's result on tuple i (same length and order); otherwise the error is the first failing call's |
| Pipeline.ParallelMap | slim_rnaseq/scripts/pipeline.py:108 | `view.map(f, *cols)` with no columns returns `[]`; it succeeds iff the tool succeeds on every per-call tuple, and output i is the result on tuple i |
| Pipeline.RunFastqc | slim_rnaseq/scripts/pipeline.py:22-29 | fails without a `fastqc` stage entry; on success output i is fastqc run on `(curr_files[i], fastqc_config, config)` |
| Pipeline.GetTrimOptions | slim_rnaseq/scripts/pipeline.py:35-37 | fails without a `trim` stage entry; otherwise succeeds iff that entry is a dictionary and `str` renders each option or its default (20, "se", "sanger"), and each field is that rendering |
| Pipeline.TrimDefaults | slim_rnaseq/scripts/pipeline.py:35-37 | each option left out takes its own default, `"20"`, `"se"` or `"sanger"`, whatever the other two are; an integer `min_length` becomes its decimal form |
| Pipeline.TrimmedPaths | slim_rnaseq/scripts/pipeline.py:38-42 | reference definition, pointwise: one output path per input, in order, `results/trimmed/append_stem(basename(x), "trim")`; TrimmedPathPlacement and TrimColumnsUnits state where the paths land and which call receives each |
| Pipeline.TrimmedPathPlacement | slim_rnaseq/scripts/pipeline.py:38-42 | when `append_stem(basename(x), "trim")` has no `/`, it is the output path's basename and the path lies directly in `<results>/trimmed` |
| Pipeline.TrimUnit | slim_rnaseq/scripts/pipeline.py:43-47 | reference definition, pointwise: sickle's five arguments in this order, the file, then pair, platform, min_length and the output path as strings; TrimColumnsUnits ties the zipped columns to it |
| Pipeline.TrimColumns | slim_rnaseq/scripts/pipeline.py:43-47 | five rectangular argument columns with one call per input file |
| Pipeline.TrimColumnsUnits | slim_rnaseq/scripts/pipeline.py:43-47 | call i receives file i, the pair, platform and length options, and output path i |
| Pipeline.RunTrim | slim_rnaseq/scripts/pipeline.py:32-48 | fails without a `trim` entry; on success the results directory and options were read and output i is sickle run on call i's arguments |
| Pipeline.Field | slim_rnaseq/scripts/pipeline.py:60 | `[x[k] for x in rows]` succeeds iff every row has field k (IndexError otherwise) and then takes field k of each row, in order |
| Pipeline.GetCellTypes | slim_rnaseq/scripts/pipeline.py:68-74 | the cell types are field 7 of every row, in order; raises unless every row has more than 7 fields |
| Pipeline.DownloadEncode | slim_rnaseq/scripts/pipeline.py:51-65 | a missing manifest exits with code -1; on success every row had field 0 and output i is the download of row i's field 0 into `config["dir"].get("data", "data")` |
| PipelineMain.SetResults | slim_rnaseq/scripts/pipeline.py:98 | after `config["dir"]["results"] = d` the results directory reads back as d |
| PipelineMain.SetResultsKeepsOthers | slim_rnaseq/scripts/pipeline.py:98 | the assignment changes no other configuration entry and no other entry of `config["dir"]` |
| PipelineMain.SetResultsOverwrite | slim_rnaseq/scripts/pipeline.py:98 | the second assignment of the results directory erases the first: no trace of a previous cell type remains |
| PipelineMain.CountsPathShape | slim_rnaseq/scripts/pipeline.py:133-141 | the count table is `<results>/htseq-count/<cell>.combined.counts`, and the RPKM table's basename is `<cell>.rpkm.txt` |
| PipelineMain.JoinTwo | slim_rnaseq/scripts/pipeline.py:133-134 | a three-part `os.path.join` is two nested joins |
| PipelineMain.ArtifactPathsDistinct | slim_rnaseq/scripts/pipeline.py:95-141 | two different cell types without `/` have different count-table paths, and different RPKM-table paths |
| PipelineMain.AbsoluteCellTypeArtifacts | slim_rnaseq/scripts/pipeline.py:133-141 | an absolute cell type's count and RPKM tables are `<cell type>.combined.counts` and `<cell type>.rpkm.txt`, beside its directory rather than in it |
| PipelineMain.MapStage | slim_rnaseq/scripts/pipeline.py:106-131 | one mapped stage dispatches the per-file tuples once; it succeeds iff every call does, and output i is the tool's result on `[curr[i]] + consts` |
| PipelineMain.Aggregate | slim_rnaseq/scripts/pipeline.py:132-142 | on success it writes the combined counts (columns = the cell type's original inputs) and then the RPKM table, at the derived paths, and leaves the file list unchanged; all its effects are those artifacts |
| PipelineMain.StageStep | slim_rnaseq/scripts/pipeline.py:102-142 | an unknown stage has no effect; `fastqc` and `htseq-count` keep the file list; `cutadapt`/`tophat` replace it with the tool's outputs, same length and order |
| PipelineMain.StageStepDispatches | slim_rnaseq/scripts/pipeline.py:103-142 | a failed stage-config lookup raises with no effect; otherwise `fastqc`, `cutadapt` and `tophat` make exactly one map of their tool over `[file] + constants`, with the source's constants; `htseq-count` first maps the counter and, on success, then writes the combined counts and the RPKM table at this cell type's paths |
| PipelineMain.StageStepEffects | slim_rnaseq/scripts/pipeline.py:102-142 | every effect of one stage is a dispatch whose every call receives the configuration, or a counting artifact |
| PipelineMain.DispatchCarries | slim_rnaseq/scripts/pipeline.py:106-131 | every call of a stage's map receives each constant argument of that stage, so every call gets `config` |
| PipelineMain.RunStages | slim_rnaseq/scripts/pipeline.py:102-142 | with no stages nothing happens and the list is unchanged; on success the final list is as long as the starting list |
| PosixPath.JoinValues | slim_rnaseq/scripts/pipeline.py:96 | as Python 2's `posixpath.join`: succeeds iff the cell type is a string that is absolute or the root is a string too; an absolute cell type is the path itself, otherwise the two are joined |
| PipelineMain.AbsoluteCellTypeIgnoresRoot | slim_rnaseq/scripts/pipeline.py:93-96 | a root that is `None` (an empty `results:` entry) with the absolute cell type `/scratch/k562` gives `/scratch/k562`, and with the relative `k562` raises |
| PipelineMain.InputFiles | slim_rnaseq/scripts/pipeline.py:99-100 | succeeds iff `config["dir"]["data"]` exists and is a string or the cell type is absolute; the files are the listing of `join(data, cell_type, "*")`, or of `<cell type>/*` for an absolute cell type |
| PipelineMain.CellTypeRunShape | slim_rnaseq/scripts/pipeline.py:95-142 | a cell type has no effect iff its directory cannot be joined, and then it raises; otherwise its first effect makes that directory; on success the final file list has one entry per input file of the cell type |
| PipelineMain.RunCellTypes | slim_rnaseq/scripts/pipeline.py:95-142 | a successful loop has at least one effect per cell type (the directory each makes) |
| PipelineMain.CellTypesOutcome | slim_rnaseq/scripts/pipeline.py:95-142 | the cell-type loop succeeds iff every cell type's run does; a failure is the first failing cell type's exception, all before it having succeeded |
| PipelineMain.ResultsRoot | slim_rnaseq/scripts/pipeline.py:93 | the results root is `"results"` when `config["dir"]` has no `results` entry |
| PipelineMain.PipelineRun | slim_rnaseq/scripts/pipeline.py:86-95 | without a `dir` dictionary, an `encode_file` entry and a list of cell types, nothing happens and `main` raises; a `dir` entry that is neither empty nor a string raises TypeError at line 86 with no effect; otherwise it is the cell-type loop from the root read once before it |
| PipelineMain.DispatchStage | slim_rnaseq/scripts/pipeline.py:103-142 | the four `if stage == ...` blocks, run in sequence, equal the stage step |
| PipelineMain.HtseqCountStage | slim_rnaseq/scripts/pipeline.py:126-142 | the `htseq-count` block (map, combine the counts, write the RPKM table) equals the stage step for `htseq-count` |
| PipelineMain.EnterCellType | slim_rnaseq/scripts/pipeline.py:96-101 | the loop head for one cell type equals the cell-type run; the new configuration is the old one with the results directory set to `<root>/<cell type>` |
| PipelineMain.CellTypeRunIgnoresPrevious | slim_rnaseq/scripts/pipeline.py:93-101 | a cell type's run does not depend on which results directory the previous cell type left behind |
| PipelineMain.NonStringDirEntryRaises | slim_rnaseq/scripts/pipeline.py:86 | with `threads: 5` among the directories, `main` raises TypeError before any cell type runs; an entry `0` is passed over |
| PipelineMain.RunPipeline | slim_rnaseq/scripts/pipeline.py:81-145 | `main`'s line-86 directory check and lookups before the loop, followed by its cell-type loop, produce exactly the effects and outcome of the specification run |
| PipelineMain.CellTypeLoop | slim_rnaseq/scripts/pipeline.py:95-142 | the cell-type loop, with the configuration mutated in place, produces exactly the effects and outcome of the specified loop |
| PipelineMain.ThreadStages | slim_rnaseq/scripts/pipeline.py:101-142 | the stage loop threading `curr_files` equals the recursive stage run |
| PipelineMain.StageAdvance | slim_rnaseq/scripts/pipeline.py:102-142 | one turn of the stage loop extends the effects by the stage's effects and continues with its output, or stops with its exception |
| PipelineMain.CellTypesAdvance | slim_rnaseq/scripts/pipeline.py:95-142 | one turn of the cell-type loop extends the effects by that cell type's effects and continues with the next, or stops with its exception |
| PipelineMain.StagesArePointwise | slim_rnaseq/scripts/pipeline.py:110-124 | after any list of stages the file list has its original length, and file i is what the replacing stages' tools made of input i |
| PipelineMain.NonReplacingStagesKeepFiles | slim_rnaseq/scripts/pipeline.py:102-142 | stages that are neither `cutadapt` nor `tophat` never change the file list |
| PipelineMain.UnknownStageSkipped | slim_rnaseq/scripts/pipeline.py:102-142 | inserting an unknown stage name (such as `trim` or `download_encode`) anywhere in `run` changes nothing |
| PipelineMain.StageEffects | slim_rnaseq/scripts/pipeline.py:102-142 | every effect of a stage run is a dispatch whose every call receives the configuration, or a counting artifact of this cell type labelled by its original inputs |
| PipelineMain.InputFilesIgnoreResults | slim_rnaseq/scripts/pipeline.py:98-100 | the input files depend only on the data directory and the cell type, not on the results directory just set |
| PipelineMain.CellTypeEffects | slim_rnaseq/scripts/pipeline.py:95-142 | after making its directory, a cell type makes no other; each of its map calls receives the configuration whose results directory is `<root>/<cell type>`, and its artifacts are at the count and RPKM paths of that directory (inside it for a cell type without `/`), labelled by its own inputs |
| PipelineMain.CellTypesIndependent | slim_rnaseq/scripts/pipeline.py:95-101 | running the cell types `a + b` is running `a` and then `b` from the original configuration, unless `a` raised |
| PipelineMain.RunEffectsScoped | slim_rnaseq/scripts/pipeline.py:93-142 | every directory made is the join of the root and a listed cell type; every other effect belongs to one listed cell type: its map calls receive that cell type's configuration, or it is an artifact at that cell type's count or RPKM path (inside its directory for a cell type without `/`) |
| Diffexp.HeaderIndex | ay_linkertrim/bcbio/hbc/shrna/diffexp.py:71-72 | `header.index(name)` succeeds iff the name is a string in the header; it is the first occurrence; otherwise ValueError |
| Diffexp.Field | ay_linkertrim/bcbio/hbc/shrna/diffexp.py:78-79 | `parts[i]` succeeds iff i is in range |
| Diffexp.IntOf | ay_linkertrim/bcbio/hbc/shrna/diffexp.py:78 | `int(s)` succeeds iff s parses as a decimal literal, with that value |
| Diffexp.TargetId | ay_linkertrim/bcbio/hbc/shrna/diffexp.py:77 | the `chrom:start-end` id exists iff the row has at least three fields |
| Diffexp.CountRowSound | ay_linkertrim/bcbio/hbc/shrna/diffexp.py:77-79 | a kept row is well formed, its counts sum to more than zero, and it is written reshaped; a well-formed row never raises |
| Diffexp.CountRows | ay_linkertrim/bcbio/hbc/shrna/diffexp.py:76-79 | at most one output row per input row, each with four fields |
| Diffexp.CountFile | ay_linkertrim/bcbio/hbc/shrna/diffexp.py:65-79 | an empty table raises StopIteration; a condition or background missing from the header raises ValueError before anything is written; otherwise exactly one file is written, to the new path: the header `["shrna.id", condition, background, "accession"]`, then the filtered data rows, with the filter's outcome |
| Diffexp.PrepareCountFile | ay_linkertrim/bcbio/hbc/shrna/diffexp.py:65-79 | the streaming writer produces exactly the specified effects and outcome |
| Diffexp.FilterRows | ay_linkertrim/bcbio/hbc/shrna/diffexp.py:76-79 | the row loop writes exactly the specified rows and stops at the specified error |
| Diffexp.FilterRow | ay_linkertrim/bcbio/hbc/shrna/diffexp.py:77-79 | the loop body agrees with the row filter |
| Diffexp.CountAdvance | ay_linkertrim/bcbio/hbc/shrna/diffexp.py:76-79 | one turn of the row loop appends the row's output, skips it, or stops with its exception |
| Diffexp.CountRowsNoError | ay_linkertrim/bcbio/hbc/shrna/diffexp.py:76-79 | on well-formed rows the filter never raises and writes at most one row per input row |
| Diffexp.CountRowsSelect | ay_linkertrim/bcbio/hbc/shrna/diffexp.py:76-79 | on well-formed rows a row is written iff it is the reshaped form `[id, cond, back, accession]` of an input row whose two counts sum to more than zero |
| Diffexp.CountRowsStep | ay_linkertrim/bcbio/hbc/shrna/diffexp.py:76-79 | the output is the first row's reshaped form (if expressed) followed by the output for the rest: an order-preserving filter |
| Diffexp.CountRowWellFormed | ay_linkertrim/bcbio/hbc/shrna/diffexp.py:77-79 | a well-formed row is kept iff its counts sum to more than zero, and then it is reshaped |
| Diffexp.CountRowsAppend | ay_linkertrim/bcbio/hbc/shrna/diffexp.py:76-79 | filtering `a + b` writes a's rows and then b's, unless a raised |
| Diffexp.ConfigDir | ay_linkertrim/bcbio/hbc/shrna/diffexp.py:84-85 | `config["dir"][role]` succeeds iff both levels exist, and is the configured value, whatever its type |
| Diffexp.SafeMakedir | ay_linkertrim/bcbio/hbc/shrna/diffexp.py:84-85 | `safe_makedir` hands back its argument; an empty value (`None`, `0`, `""`) makes nothing; another string makes that non-empty directory; any other value raises TypeError with no effect |
| Diffexp.Base | ay_linkertrim/bcbio/hbc/shrna/diffexp.py:86 | succeeds iff `experiment_name` exists and `str` renders it and the condition; the base is `<exp>-<name>`, and for two strings their concatenation around `-` |
| Diffexp.RecordFields | ay_linkertrim/bcbio/hbc/shrna/diffexp.py:90-95 | succeeds iff `config["algorithm"]` is a dictionary holding `pval_thresh` and its `top_targets` converts; the fields are that threshold and those top targets |
| Diffexp.TopTargets | ay_linkertrim/bcbio/hbc/shrna/diffexp.py:93-95 | `top_targets` is present iff the configured value is truthy, and then it is that value as an int |
| Diffexp.PrepareYamlConfig | ay_linkertrim/bcbio/hbc/shrna/diffexp.py:81-99 | on success: infile, out base and config file are the Python 2 joins of the configured `tmp`/`expression` values with `<base>-counts.csv`, `<base>` and `<base>-config.yaml`; id `"shrna.id"`, model `[condition, background]`, the configured `pval_thresh` and `top_targets`; its effects are the two `safe_makedir` calls' and the record's write; a failure leaves at most the two directories; no empty directory is ever made |
| Diffexp.NoneTmpDirPassedOver | ay_linkertrim/bcbio/hbc/shrna/diffexp.py:84-86 | with `tmp: ~` the expression directory is still made, then the missing `experiment_name` raises KeyError |
| Diffexp.NoneTmpDirJoinRaises | ay_linkertrim/bcbio/hbc/shrna/diffexp.py:84-88 | with `tmp: ~` and an experiment name, the expression directory is made and the join with `None` at line 88 raises |
| Diffexp.EmptyTmpDirMakesNothing | ay_linkertrim/bcbio/hbc/shrna/diffexp.py:84-97 | with `tmp: ""` no directory is made for it, and the count table and the record are named `<base>-counts.csv` and `<base>-config.yaml` in the working directory |
| Diffexp.RecordMatchesCountTable | ay_linkertrim/bcbio/hbc/shrna/diffexp.py:22-23 | the count table is written to the record's infile, its id column is the record's id name, and its two count columns are the record's model conditions |
| Diffexp.ComparisonFilesDistinct | ay_linkertrim/bcbio/hbc/shrna/diffexp.py:22-26 | the count table, the YAML record and the R result of one comparison are three different paths |
| Diffexp.DiffexpFile | ay_linkertrim/bcbio/hbc/shrna/diffexp.py:24 | the result file is the out base followed by `-diffexp.tsv` |
| Diffexp.DiffexpProgram | ay_linkertrim/bcbio/hbc/shrna/diffexp.py:26 | `config["program"]["diffexp"]` succeeds iff both levels exist and the entry is a string, and is that string |
| Diffexp.NoreplicateComparison | ay_linkertrim/bcbio/hbc/shrna/diffexp.py:19-27 | on success, the record was prepared and the result is its `out_base + "-diffexp.tsv"` |
| Diffexp.NoreplicateRscript | ay_linkertrim/bcbio/hbc/shrna/diffexp.py:24-27 | the R script is called only when the result file is absent, with `["Rscript", program, config_file]`; when the file was absent and the comparison succeeded, that call was the last effect |
| Diffexp.ComparisonIdempotent | ay_linkertrim/bcbio/hbc/shrna/diffexp.py:24-27 | repeating a comparison once its result is present gives the same file, calls no R script, and every effect it has already happened in the first run |
| Diffexp.RunConditions | ay_linkertrim/bcbio/hbc/shrna/diffexp.py:14-16 | on success the present files only grow, and every file added is a `-diffexp.tsv` result |
| Diffexp.RunComparisons | ay_linkertrim/bcbio/hbc/shrna/diffexp.py:13-16 | on success the present files only grow, and every file added is a `-diffexp.tsv` result |
| Diffexp.DoComparisonsRun | ay_linkertrim/bcbio/hbc/shrna/diffexp.py:12-17 | without a `comparisons` list nothing happens and it raises; on success the present files only grow, by `-diffexp.tsv` results |
| Diffexp.DoComparisons | ay_linkertrim/bcbio/hbc/shrna/diffexp.py:12-17 | the nested loop produces exactly the specified effects and outcome |
| Diffexp.CompareConditions | ay_linkertrim/bcbio/hbc/shrna/diffexp.py:14-16 | the inner loop equals the per-comparison specification |
| Diffexp.ComparisonsAdvance | ay_linkertrim/bcbio/hbc/shrna/diffexp.py:13-16 | one turn of the outer loop runs that comparison's conditions and continues, or stops with its exception |
| Diffexp.ConditionsAdvance | ay_linkertrim/bcbio/hbc/shrna/diffexp.py:14-16 | one turn of the inner loop looks the background up again, runs one comparison and continues, or stops |
| Diffexp.PairsWith | ay_linkertrim/bcbio/hbc/shrna/diffexp.py:14-16 | reference definition, pointwise: pair i is condition i with the comparison's background; ConditionsArePairs and NestedIsFlat tie the comparison loops to it |
| Diffexp.NestedIsFlat | ay_linkertrim/bcbio/hbc/shrna/diffexp.py:12-17 | the nested loop equals running every (condition, background) pair in nested list order, stopping where the enumeration or a comparison raises |
| Diffexp.ConditionsArePairs | ay_linkertrim/bcbio/hbc/shrna/diffexp.py:14-16 | one comparison's inner loop is the flat run of its pairs |
| Diffexp.RunPairsAppend | ay_linkertrim/bcbio/hbc/shrna/diffexp.py:12-17 | running pairs `a + b` is running `a` and then `b` with the files `a` left present |
| Diffexp.AnnotatedName | ay_linkertrim/bcbio/hbc/shrna/diffexp.py:32 | the output name is ten characters longer than the input, starts with its root and ends with its extension |
| Diffexp.AnnotatedNameShape | ay_linkertrim/bcbio/hbc/shrna/diffexp.py:32 | the output name splits as `<root>-annotated` and the input's extension, and differs from the input |
| Diffexp.AnnotateRow | ay_linkertrim/bcbio/hbc/shrna/diffexp.py:41-43 | an empty row raises IndexError; a last field `"."` gains `(".", ".")`; otherwise the lookup of the `;`-split last field is appended; a row always gains exactly two fields, keeping its own |
| Diffexp.AnnotateRows | ay_linkertrim/bcbio/hbc/shrna/diffexp.py:40-43 | output row j is input row j annotated; on success every row is written; on failure the rows before the failing one are written |
| Diffexp.GeneDescriptions | ay_linkertrim/bcbio/hbc/shrna/diffexp.py:29-45 | returns the annotated name; nothing is done iff that file is present; otherwise one file is written whose header gains `genesymbol` and `description`, followed by the annotated data rows, and it succeeds iff every row was written |
| Diffexp.AddGeneDescriptions | ay_linkertrim/bcbio/hbc/shrna/diffexp.py:29-45 | the streaming writer produces exactly the specified effects and outcome |
| Diffexp.AnnotateLoop | ay_linkertrim/bcbio/hbc/shrna/diffexp.py:40-43 | the row loop writes exactly the specified rows |
| Diffexp.AnnotateOne | ay_linkertrim/bcbio/hbc/shrna/diffexp.py:41-43 | the loop body agrees with the row annotation |
| Diffexp.AnnotateAdvance | ay_linkertrim/bcbio/hbc/shrna/diffexp.py:40-43 | one turn of the row loop appends the annotated row or stops with its exception |
| PyValues.GetItem | slim_rnaseq/scripts/pipeline.py:15 | `v[key]` succeeds iff v is a dictionary holding key; KeyError(key) when it lacks it |
| PyValues.Get | slim_rnaseq/scripts/pipeline.py:93 | `v.get(key, default)` gives the entry or the default |
| PyValues.ToStr | slim_rnaseq/scripts/pipeline.py:35-37 | `str` of a string is itself and of an int its decimal form; it succeeds except on a float, list or dictionary |
| PyValues.ToInt | ay_linkertrim/bcbio/hbc/shrna/diffexp.py:78 | `int` of a string succeeds iff the stripped string is a decimal literal, else ValueError; a float is truncated toward zero; None, lists and dictionaries raise TypeError |
| PyValues.Index | ay_linkertrim/bcbio/hbc/shrna/diffexp.py:71-72 | `xs.index(x)` is the first position of x, or ValueError(x) |
| Text.IntToStringRoundTrip | slim_rnaseq/scripts/pipeline.py:35 | the decimal rendering of an int parses back to that int |
| Text.ParseInt | ay_linkertrim/bcbio/hbc/shrna/diffexp.py:78 | a string parses iff, once stripped, it is digits after an optional sign and optional spaces |
| Text.SpaceAfterSign | ay_linkertrim/bcbio/hbc/shrna/diffexp.py:78 | as in Python 2, `int("- 5")` is -5: spaces between the sign and the digits are accepted |
| Text.SplitJoinRoundTrip | ay_linkertrim/bcbio/hbc/shrna/diffexp.py:41 | joining the `;`-split pieces gives back the field |
| PosixPath.JoinShape | slim_rnaseq/scripts/pipeline.py:96 | an absolute second part replaces the first; otherwise the result starts with the first part, ends with the second and adds at most one `/` |
| PosixPath.BasenameOfJoin | slim_rnaseq/scripts/pipeline.py:40-42 | the basename of a path joined from a `/`-free name is that name |
| PosixPath.JoinInjective | slim_rnaseq/scripts/pipeline.py:96 | different `/`-free names joined onto one directory give different paths |
| PosixPath.Splitext | ay_linkertrim/bcbio/hbc/shrna/diffexp.py:32 | root and extension concatenate to the path; the extension is empty or a single dot-led suffix without `/` |
| PosixPath.SplitextInsert | ay_linkertrim/bcbio/hbc/shrna/diffexp.py:32 | inserting text without `/` or `.` between root and extension keeps the extension |

## Left out

- Cluster start-up and shutdown (`start_cluster`, `stop_cluster`) and the parallelism of `view.map`. `view.map` is modelled as a sequential map that keeps order and surfaces the first failing call's exception.
- PipelineMain.CellTypeRun: an empty cell type under an empty results root has the directory `""`. `safe_makedir` passes over it, but the model records `MakeDir("")`. Handling it would cost the proved fact that each succeeding cell type has at least one effect.
- The up-front `safe_makedir` of every configured directory (pipeline.py line 86) is not recorded as an effect. The model does check that `config["dir"]` is a dictionary there and raises TypeError, as `os.path.exists` does, for an entry that is neither empty nor a string.
- `view.map` with no argument columns (a cell type with no input files, so `zip(*[])` is empty) is assumed to return an empty list.
- Logging, `print`, and the message helper `_emit_stage_message` have no effect on the model.
- Reading and parsing YAML, CSV and TSV files. Configurations are given as values and tables as rows.
- Directory listings (`glob.glob`) are a function parameter.
- `os.path.exists` and `file_exists` are membership in a given set of present files. The R script is assumed to create its result file when it succeeds.
- Tool internals are function parameters: `fastqc`, `sickle`, `cutadapt`, `tophat`, `htseq-count`, `combine_counts`, `calculate_rpkm`, `append_stem` and `_download_ref`.
- The R gene-description lookup `_get_gene_descr` (rpy2 and biomaRt) is the `describe` parameter of the annotation functions.
- The external `Rscript` process is the `rscript` parameter.
- `float(pval_thresh)`: the threshold is carried as the configured value, unconverted.
- `stage_dict` is never used by `main`. `_download_encode`, `_run_fastqc` and `_run_trim` are modelled as functions but, as in the script, are never dispatched by the stage loop.
- `_add_gene_descriptions` is commented out of `do_comparisons`. The model keeps it as a separate operation and does not call it from the comparison loop.
- PyValues.ToStr: Python's `str()` renders a float, list or dictionary in its own notation. The model raises TypeError for them instead. So Diffexp.Base (an experiment name or condition given as such a value, diffexp.py line 86) and Pipeline.GetTrimOptions (a trim option given as such a value, pipeline.py lines 35-37) fail in the model where Python goes on with the rendered text.
- Floats: a YAML float is a value of its own. Its truthiness and `int()` truncation are modelled; its `str()` rendering and `float()` of strings are not.
- PyValues.AsList: only lists are iterable. Iterating over a dictionary or string configuration entry is modelled as TypeError.
- AttributeError (for example `.get` or `.values()` on a non-dictionary) is folded into TypeError.
- Diffexp.HeaderIndex: `header.index(x)` for a non-string `x` raises ValueError in Python with a message naming `x`. The model reports ValueError without reproducing the message text.
- Diffexp.CountRowsSelect: row membership is stated only for tables whose rows are well formed. Order and stopping at the first bad row are stated separately by CountRowsStep, CountRowsAppend and FilterRows.
- Text.ParseInt: only ASCII digits after an optional sign, with surrounding ASCII whitespace, are modelled. The non-ASCII digits and whitespace that Python also accepts in unicode strings are not.
