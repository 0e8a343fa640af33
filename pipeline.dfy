/** The stage helpers of the RNA-seq pipeline script: configuration lookups,
    the argument columns handed to the cluster's parallel map, the parallel
    map itself (as a sequential, order-preserving map) and the stage helper
    functions that build their own argument lists. */
module Pipeline {
  import opened PyValues
  import opened PosixPath
  import opened Text

  /** The external tools the stages hand their files to. */
  datatype Tool = FastQC | Sickle | Cutadapt | Tophat | HtseqCount | DownloadRef

  /** One invocation of a tool on one argument tuple, as a cluster engine runs
      it: the value the tool returns, or the exception it raises. */
  type Runner = (Tool, seq<Value>) -> Result<Value>

  // ---------------------------------------------------------------------
  // Stage configuration lookups

  /** The configuration has a `stage` mapping with an entry for `stage`. */
  predicate HasStage(config: Value, stage: string)
  {
    config.VDict? && "stage" in config.entries
    && config.entries["stage"].VDict? && stage in config.entries["stage"].entries
  }

  /** `config["stage"][stage]`. */
  function StageConfig(config: Value, stage: string): (r: Result<Value>)
    ensures r.Ok? <==> HasStage(config, stage)
    ensures r.Ok? ==> r.value == config.entries["stage"].entries[stage]
    ensures config.VDict? && "stage" !in config.entries ==> r == Err(KeyError("stage"))
    ensures (config.VDict? && "stage" in config.entries && config.entries["stage"].VDict?
             && stage !in config.entries["stage"].entries) ==> r == Err(KeyError(stage))
  {
    var stages :- GetItem(config, "stage");
    GetItem(stages, stage)
  }

  /** `config["stage"][stage]["program"]`. */
  function Program(config: Value, stage: string): (r: Result<Value>)
    ensures r.Ok? <==> HasStage(config, stage) && config.entries["stage"].entries[stage].VDict?
                       && "program" in config.entries["stage"].entries[stage].entries
    ensures r.Ok? ==> r.value == config.entries["stage"].entries[stage].entries["program"]
    ensures (HasStage(config, stage) && config.entries["stage"].entries[stage].VDict?
             && "program" !in config.entries["stage"].entries[stage].entries) ==> r == Err(KeyError("program"))
  {
    var options :- StageConfig(config, stage);
    GetItem(options, "program")
  }

  // ---------------------------------------------------------------------
  // Argument columns: zip(*product(files, [c1], ..., [ck]))

  /** `[x] * n`. */
  function Repeat(x: Value, n: nat): (r: seq<Value>)
    ensures |r| == n && forall i :: 0 <= i < n ==> r[i] == x
  {
    seq(n, _ => x)
  }

  /** `[[c] for c in consts]`: the one-element pools of the constant arguments. */
  function Singletons(consts: seq<Value>): (pools: seq<seq<Value>>)
    ensures |pools| == |consts| && forall j :: 0 <= j < |consts| ==> pools[j] == [consts[j]]
  {
    seq(|consts|, j requires 0 <= j < |consts| => [consts[j]])
  }

  /** Each element of `xs`, in order, put in front of each tail, in order. */
  function Prefix(xs: seq<Value>, tails: seq<seq<Value>>): (r: seq<seq<Value>>)
    ensures |r| == |xs| * |tails|
    decreases |xs|
  {
    if xs == [] then []
    else seq(|tails|, j requires 0 <= j < |tails| => [xs[0]] + tails[j]) + Prefix(xs[1..], tails)
  }

  /** The tuples of `Prefix` are exactly an element of `xs` in front of a tail. */
  lemma {:induction false} PrefixMembers(xs: seq<Value>, tails: seq<seq<Value>>)
    ensures forall t :: t in Prefix(xs, tails) ==> |t| >= 1 && t[0] in xs && t[1..] in tails
    ensures forall x, u :: x in xs && u in tails ==> [x] + u in Prefix(xs, tails)
    decreases |xs|
  {
    if xs != [] {
      PrefixMembers(xs[1..], tails);
      var front := seq(|tails|, j requires 0 <= j < |tails| => [xs[0]] + tails[j]);
      assert Prefix(xs, tails) == front + Prefix(xs[1..], tails);
      assert forall j :: 0 <= j < |tails| ==> front[j][1..] == tails[j];
      assert forall x :: x in xs ==> x == xs[0] || x in xs[1..];
    }
  }

  /** The number of ways to pick one element from each pool. */
  function Combinations(pools: seq<seq<Value>>): nat
    decreases |pools|
  {
    if pools == [] then 1 else |pools[0]| * Combinations(pools[1..])
  }

  /** `t` picks one element from each pool, in pool order. */
  predicate Choice(t: seq<Value>, pools: seq<seq<Value>>)
  {
    |t| == |pools| && forall k :: 0 <= k < |pools| ==> t[k] in pools[k]
  }

  /** `itertools.product(*pools)`: one tuple per choice of an element from
      each pool, the last pool varying fastest; as many tuples as there are
      such choices. */
  function Product(pools: seq<seq<Value>>): (r: seq<seq<Value>>)
    ensures |r| == Combinations(pools)
    decreases |pools|
  {
    if pools == [] then [[]] else Prefix(pools[0], Product(pools[1..]))
  }

  /** Every tuple of the product is a choice, and every choice is among the
      tuples. */
  lemma {:induction false} ProductChoices(pools: seq<seq<Value>>)
    ensures forall t :: t in Product(pools) ==> Choice(t, pools)
    ensures forall t :: Choice(t, pools) ==> t in Product(pools)
    decreases |pools|
  {
    if pools == [] {
      forall t | Choice(t, pools) ensures t in Product(pools) {
        assert t == [];
      }
    } else {
      ProductChoices(pools[1..]);
      ProductStep(pools, Product(pools[1..]));
    }
  }

  /** A choice over `pools` is an element of the first pool in front of a
      choice over the rest. */
  lemma ProductStep(pools: seq<seq<Value>>, rest: seq<seq<Value>>)
    requires pools != []
    requires forall t :: t in rest ==> Choice(t, pools[1..])
    requires forall t :: Choice(t, pools[1..]) ==> t in rest
    ensures forall t :: t in Prefix(pools[0], rest) ==> Choice(t, pools)
    ensures forall t :: Choice(t, pools) ==> t in Prefix(pools[0], rest)
  {
    var r := Prefix(pools[0], rest);
    PrefixMembers(pools[0], rest);
    forall t | t in r ensures Choice(t, pools) {
      assert Choice(t[1..], pools[1..]);
      forall k | 1 <= k < |pools| ensures t[k] in pools[k] {
        assert t[k] == t[1..][k - 1];
      }
    }
    forall t | Choice(t, pools) ensures t in r {
      assert forall k :: 0 <= k < |pools| - 1 ==> t[1..][k] == t[k + 1];
      assert Choice(t[1..], pools[1..]);
      assert [t[0]] + t[1..] == t;
    }
  }

  /** The length of the shortest tuple. */
  function MinLen(tuples: seq<seq<Value>>): (m: nat)
    requires tuples != []
    ensures forall i :: 0 <= i < |tuples| ==> m <= |tuples[i]|
    ensures exists i :: 0 <= i < |tuples| && m == |tuples[i]|
    decreases |tuples|
  {
    if |tuples| == 1 then |tuples[0]|
    else
      var m := MinLen(tuples[1..]);
      assert forall i :: 1 <= i < |tuples| ==> tuples[1..][i - 1] == tuples[i];
      if |tuples[0]| <= m then |tuples[0]| else m
  }

  /** `zip(*tuples)`: the transposition, truncated to the shortest tuple;
      no tuples at all give no columns. */
  function Zip(tuples: seq<seq<Value>>): (r: seq<seq<Value>>)
    ensures tuples == [] ==> r == []
    ensures tuples != [] ==> |r| == MinLen(tuples)
    ensures forall j :: 0 <= j < |r| ==> |r[j]| == |tuples|
    ensures forall j, i :: 0 <= j < |r| && 0 <= i < |tuples| ==> j < |tuples[i]| && r[j][i] == tuples[i][j]
  {
    if tuples == [] then []
    else
      var width := MinLen(tuples);
      seq(width, j requires 0 <= j < width =>
        seq(|tuples|, i requires 0 <= i < |tuples| => tuples[i][j]))
  }

  /** The argument columns the driver builds for a stage:
      `zip(*product(files, [consts[0]], ..., [consts[k-1]]))`. */
  function ArgColumns(files: seq<Value>, consts: seq<Value>): seq<seq<Value>>
  {
    Zip(Product([files] + Singletons(consts)))
  }

  /** Argument lists of equal length, as the parallel map requires. */
  predicate Rectangular(cols: seq<seq<Value>>)
  {
    forall j :: 0 <= j < |cols| ==> |cols[j]| == |cols[0]|
  }

  /** The argument tuples a map over the columns calls its function with:
      tuple i holds element i of every column. */
  function Units(cols: seq<seq<Value>>): (units: seq<seq<Value>>)
    requires Rectangular(cols)
    ensures cols != [] ==> |units| == |cols[0]|
    ensures cols == [] ==> units == []
  {
    if cols == [] then []
    else
      seq(|cols[0]|, i requires 0 <= i < |cols[0]| =>
        seq(|cols|, j requires 0 <= j < |cols| => cols[j][i]))
  }

  /** Tuple i is file i followed by the constant arguments. */
  function Tuples(files: seq<Value>, consts: seq<Value>): (r: seq<seq<Value>>)
    ensures |r| == |files|
    ensures forall i :: 0 <= i < |files| ==> |r[i]| == |consts| + 1 && r[i][0] == files[i] && r[i][1..] == consts
  {
    seq(|files|, i requires 0 <= i < |files| => [files[i]] + consts)
  }

  lemma {:induction false} PrefixOfOneTail(xs: seq<Value>, t: seq<Value>)
    ensures Prefix(xs, [t]) == Tuples(xs, t)
    decreases |xs|
  {
    if xs != [] {
      PrefixOfOneTail(xs[1..], t);
      var front := seq(1, j requires 0 <= j < 1 => [xs[0]] + [t][j]);
      assert front == [[xs[0]] + t];
      assert Prefix(xs, [t]) == front + Prefix(xs[1..], [t]);
      var tuples := Tuples(xs, t);
      assert tuples == [tuples[0]] + tuples[1..];
      assert tuples[1..] == Tuples(xs[1..], t);
    }
  }

  lemma {:induction false} ProductOfSingletons(consts: seq<Value>)
    ensures Product(Singletons(consts)) == [consts]
    decreases |consts|
  {
    if consts != [] {
      assert Singletons(consts)[1..] == Singletons(consts[1..]);
      ProductOfSingletons(consts[1..]);
      PrefixOfOneTail([consts[0]], consts[1..]);
      assert [consts[0]] + consts[1..] == consts;
    }
  }

  /** The product of the files with one-element pools is one tuple per file,
      in file order. */
  lemma ProductTuples(files: seq<Value>, consts: seq<Value>)
    ensures Product([files] + Singletons(consts)) == Tuples(files, consts)
  {
    var pools := [files] + Singletons(consts);
    assert pools[1..] == Singletons(consts);
    ProductOfSingletons(consts);
    PrefixOfOneTail(files, consts);
  }

  /** Transposing tuples of one width and transposing back restores them. */
  lemma ZipUnitsRoundTrip(tuples: seq<seq<Value>>, width: nat)
    requires width >= 1 && forall i :: 0 <= i < |tuples| ==> |tuples[i]| == width
    ensures Rectangular(Zip(tuples))
    ensures Units(Zip(tuples)) == tuples
  {
    if tuples != [] {
      var cols := Zip(tuples);
      assert |cols| == width;
      assert Rectangular(cols);
      var units := Units(cols);
      assert |units| == |tuples|;
      forall i | 0 <= i < |tuples| ensures units[i] == tuples[i] {
        assert |units[i]| == width;
      }
    }
  }

  /** The argument columns of a stage: none when there are no files, and
      otherwise one column of the files followed by one column per constant,
      every column as long as the file list; the i-th call receives file i
      and the constants. */
  lemma ArgColumnsShape(files: seq<Value>, consts: seq<Value>)
    ensures var cols := ArgColumns(files, consts);
      && Rectangular(cols)
      && (files == [] ==> cols == [])
      && (files != [] ==>
            && |cols| == |consts| + 1 && cols[0] == files
            && forall j :: 0 <= j < |consts| ==> cols[j + 1] == Repeat(consts[j], |files|))
      && Units(cols) == Tuples(files, consts)
  {
    ProductTuples(files, consts);
    ZipUnitsRoundTrip(Tuples(files, consts), |consts| + 1);
    if files != [] {
      ZipTuplesColumns(files, consts);
    }
  }

  /** Transposing the per-file tuples gives the explicit argument lists. */
  lemma ZipTuplesColumns(files: seq<Value>, consts: seq<Value>)
    requires files != []
    ensures Zip(Tuples(files, consts)) == Columns(files, consts)
  {
    var tuples := Tuples(files, consts);
    var cols := Zip(tuples);
    var expected := Columns(files, consts);
    assert |tuples[0]| == |consts| + 1;
    assert MinLen(tuples) == |consts| + 1;
    assert |cols| == |expected|;
    forall j | 0 <= j < |cols| ensures cols[j] == expected[j] {
      assert |cols[j]| == |files|;
      var column := if j == 0 then files else Repeat(consts[j - 1], |files|);
      assert expected[j] == column;
      forall i | 0 <= i < |files| ensures cols[j][i] == column[i] {
        assert cols[j][i] == tuples[i][j];
        assert tuples[i] == [files[i]] + consts;
      }
    }
  }

  /** The explicit argument lists `files, [c1] * n, ..., [ck] * n`. */
  function Columns(files: seq<Value>, consts: seq<Value>): (cols: seq<seq<Value>>)
    ensures Rectangular(cols)
  {
    [files] + seq(|consts|, j requires 0 <= j < |consts| => Repeat(consts[j], |files|))
  }

  /** Explicit argument lists give the same calls as the zipped product. */
  lemma ColumnsTuples(files: seq<Value>, consts: seq<Value>)
    ensures Units(Columns(files, consts)) == Tuples(files, consts)
  {
    var cols := Columns(files, consts);
    var units := Units(cols);
    forall i | 0 <= i < |files| ensures units[i] == [files[i]] + consts {
      assert |units[i]| == |consts| + 1;
    }
  }

  // ---------------------------------------------------------------------
  // The cluster's parallel map, as a sequential order-preserving map

  /** Runs `tool` on every tuple. The result is the list of outputs in input
      order when every call succeeds, and otherwise the exception of the
      first failing call: no partial output list is ever returned. */
  function MapUnits(run: Runner, tool: Tool, units: seq<seq<Value>>): (r: Result<seq<Value>>)
    ensures r.Ok? <==> forall i :: 0 <= i < |units| ==> run(tool, units[i]).Ok?
    ensures r.Ok? ==> |r.value| == |units|
                      && forall i :: 0 <= i < |units| ==> run(tool, units[i]) == Ok(r.value[i])
    ensures r.Err? ==> exists i :: 0 <= i < |units| && run(tool, units[i]) == Err(r.error)
                                   && forall k :: 0 <= k < i ==> run(tool, units[k]).Ok?
    decreases |units|
  {
    if units == [] then Ok([])
    else
      match run(tool, units[0])
      case Err(e) => Err(e)
      case Ok(out) =>
        match MapUnits(run, tool, units[1..])
        case Err(e) =>
          assert forall i :: 1 <= i < |units| ==> units[1..][i - 1] == units[i];
          Err(e)
        case Ok(outs) =>
          assert forall i :: 1 <= i < |units| ==> units[1..][i - 1] == units[i];
          Ok([out] + outs)
  }

  /** `view.map(f, *cols)`. */
  function ParallelMap(run: Runner, tool: Tool, cols: seq<seq<Value>>): (r: Result<seq<Value>>)
    requires Rectangular(cols)
    ensures cols == [] ==> r == Ok([])
    ensures r.Ok? <==> forall i :: 0 <= i < |Units(cols)| ==> run(tool, Units(cols)[i]).Ok?
    ensures r.Ok? ==> |r.value| == |Units(cols)|
                      && forall i :: 0 <= i < |Units(cols)| ==> run(tool, Units(cols)[i]) == Ok(r.value[i])
  {
    MapUnits(run, tool, Units(cols))
  }

  // ---------------------------------------------------------------------
  // Stage helpers with their own argument lists (pipeline.py:22-74)

  /** `_run_fastqc`: fastqc on every file with the fastqc options and the
      whole configuration; the tool outputs, one per file, in file order. */
  function RunFastqc(run: Runner, currFiles: seq<Value>, config: Value): (r: Result<seq<Value>>)
    ensures !HasStage(config, "fastqc") ==> r.Err?
    ensures r.Ok? ==> |r.value| == |currFiles| && forall i :: 0 <= i < |currFiles| ==>
              run(FastQC, [currFiles[i], config.entries["stage"].entries["fastqc"], config]) == Ok(r.value[i])
  {
    var options :- StageConfig(config, "fastqc");
    ColumnsTuples(currFiles, [options, config]);
    assert forall i :: 0 <= i < |currFiles| ==>
      Tuples(currFiles, [options, config])[i] == [currFiles[i], options, config];
    ParallelMap(run, FastQC, Columns(currFiles, [options, config]))
  }

  /** The trim options as strings: `min_length`, `pair` and `platform`,
      with the defaults 20, "se" and "sanger". */
  datatype TrimOptions = TrimOptions(minLength: string, pair: string, platform: string)

  /** `str(config["stage"]["trim"].get(key, default))` for the three options. */
  function GetTrimOptions(config: Value): (r: Result<TrimOptions>)
    ensures !HasStage(config, "trim") ==> r.Err?
    ensures HasStage(config, "trim") ==>
      var trim := config.entries["stage"].entries["trim"];
      && (r.Ok? <==> trim.VDict? && ToStr(Get(trim, "min_length", VInt(20)).value).Ok?
                     && ToStr(Get(trim, "pair", VStr("se")).value).Ok?
                     && ToStr(Get(trim, "platform", VStr("sanger")).value).Ok?)
      && (r.Ok? ==>
            && r.value.minLength == ToStr(Get(trim, "min_length", VInt(20)).value).value
            && r.value.pair == ToStr(Get(trim, "pair", VStr("se")).value).value
            && r.value.platform == ToStr(Get(trim, "platform", VStr("sanger")).value).value)
  {
    var trim :- StageConfig(config, "trim");
    if !trim.VDict? then Err(TypeError)
    else
      var minLengthText :- ToStr(Get(trim, "min_length", VInt(20)).value);
      var pairText :- ToStr(Get(trim, "pair", VStr("se")).value);
      var platformText :- ToStr(Get(trim, "platform", VStr("sanger")).value);
      Ok(TrimOptions(minLengthText, pairText, platformText))
  }

  /** Each option left out of the trim section takes its own default,
      whatever the other two are: "20", "se" and "sanger"; a minimum length
      given as an integer is its decimal form. A section that sets none of
      them yields all three defaults. */
  lemma TrimDefaults(config: Value)
    requires HasStage(config, "trim") && config.entries["stage"].entries["trim"].VDict?
    ensures var t := config.entries["stage"].entries["trim"].entries;
      var r := GetTrimOptions(config);
      && (r.Ok? && "min_length" !in t ==> r.value.minLength == "20")
      && (r.Ok? && "pair" !in t ==> r.value.pair == "se")
      && (r.Ok? && "platform" !in t ==> r.value.platform == "sanger")
      && (r.Ok? && "min_length" in t && t["min_length"].VInt? ==> r.value.minLength == IntToString(t["min_length"].i))
      && ("min_length" !in t && "pair" !in t && "platform" !in t ==> r == Ok(TrimOptions("20", "se", "sanger")))
  {
    assert Digits(2) == "2";
    assert Digits(20) == Digits(2) + [DigitChar(0)];
    assert IntToString(20) == "20";
  }

  /** The output path of one trimmed file:
      `<results>/trimmed/append_stem(basename(x), "trim")`. */
  function TrimmedPath(appendStem: (string, string) -> string, results: string, file: string): string
  {
    Join(Join(results, "trimmed"), appendStem(Basename(file), "trim"))
  }

  /** When the stem has no `/`, it is the output path's basename and the
      path lies directly in `<results>/trimmed`. */
  lemma TrimmedPathPlacement(appendStem: (string, string) -> string, results: string, file: string)
    ensures var name := appendStem(Basename(file), "trim");
      var p := TrimmedPath(appendStem, results, file);
      '/' !in name ==> Basename(p) == name && p in {Join(results, "trimmed") + name, Join(results, "trimmed") + "/" + name}
  {
    var name := appendStem(Basename(file), "trim");
    if '/' !in name {
      BasenameOfJoin(Join(results, "trimmed"), name);
    }
  }

  /** The arguments of one sickle call: the file, the three options and
      the file's output path. */
  function TrimUnit(appendStem: (string, string) -> string, o: TrimOptions, results: string, file: Value)
    : (u: seq<Value>)
    requires file.VStr?
    ensures |u| == 5 && u[0] == file
    ensures u[1] == VStr(o.pair)
    ensures u[2] == VStr(o.platform)
    ensures u[3] == VStr(o.minLength)
    ensures u[4] == VStr(TrimmedPath(appendStem, results, file.s))
  {
    [file, VStr(o.pair), VStr(o.platform), VStr(o.minLength), VStr(TrimmedPath(appendStem, results, file.s))]
  }

  /** `[join(out_dir, append_stem(basename(x), "trim")) for x in files]`. */
  function TrimmedPaths(appendStem: (string, string) -> string, results: string, files: seq<Value>)
    : (paths: seq<Value>)
    requires forall i :: 0 <= i < |files| ==> files[i].VStr?
    ensures |paths| == |files|
    ensures forall i :: 0 <= i < |files| ==> paths[i] == VStr(TrimmedPath(appendStem, results, files[i].s))
  {
    seq(|files|, i requires 0 <= i < |files| => VStr(TrimmedPath(appendStem, results, files[i].s)))
  }

  /** The five argument lists of the sickle map: the files, `[pair] * n`,
      `[platform] * n`, `[min_length] * n` and the output paths. */
  function TrimColumns(appendStem: (string, string) -> string, o: TrimOptions, results: string,
                       files: seq<Value>): (cols: seq<seq<Value>>)
    requires forall i :: 0 <= i < |files| ==> files[i].VStr?
    ensures Rectangular(cols) && |cols| == 5 && |Units(cols)| == |files|
  {
    var n := |files|;
    [files, Repeat(VStr(o.pair), n), Repeat(VStr(o.platform), n), Repeat(VStr(o.minLength), n),
     TrimmedPaths(appendStem, results, files)]
  }

  /** Sickle call i receives file i, the three options and file i's output path. */
  lemma TrimColumnsUnits(appendStem: (string, string) -> string, o: TrimOptions, results: string,
                         files: seq<Value>)
    requires forall i :: 0 <= i < |files| ==> files[i].VStr?
    ensures forall i :: 0 <= i < |files| ==>
      Units(TrimColumns(appendStem, o, results, files))[i] == TrimUnit(appendStem, o, results, files[i])
  {
    var cols := TrimColumns(appendStem, o, results, files);
    forall i | 0 <= i < |files|
      ensures Units(cols)[i] == TrimUnit(appendStem, o, results, files[i])
    {
      TrimUnitAt(appendStem, o, results, files, i);
    }
  }

  lemma TrimUnitAt(appendStem: (string, string) -> string, o: TrimOptions, results: string,
                   files: seq<Value>, i: nat)
    requires forall i :: 0 <= i < |files| ==> files[i].VStr?
    requires i < |files|
    ensures Units(TrimColumns(appendStem, o, results, files))[i] == TrimUnit(appendStem, o, results, files[i])
  {
    var cols := TrimColumns(appendStem, o, results, files);
    var u := Units(cols)[i];
    var lit := [files[i], VStr(o.pair), VStr(o.platform), VStr(o.minLength),
                VStr(TrimmedPath(appendStem, results, files[i].s))];
    assert |u| == 5;
    assert u[4] == cols[4][i] == lit[4];
    assert u == lit;
  }

  /** `_run_trim`: sickle on every file with the pair, platform and minimum
      length options and that file's own output path under `trimmed`. */
  function RunTrim(run: Runner, appendStem: (string, string) -> string, currFiles: seq<Value>, config: Value)
    : (r: Result<seq<Value>>)
    ensures !HasStage(config, "trim") ==> r.Err?
    ensures r.Ok? ==>
      && GetTrimOptions(config).Ok?
      && config.VDict? && "dir" in config.entries && config.entries["dir"].VDict?
      && "results" in config.entries["dir"].entries
      && config.entries["dir"].entries["results"].VStr?
      && (forall i :: 0 <= i < |currFiles| ==> currFiles[i].VStr?)
      && |r.value| == |currFiles|
      && var o := GetTrimOptions(config).value;
         var results := config.entries["dir"].entries["results"].s;
         forall i :: 0 <= i < |currFiles| ==>
           run(Sickle, TrimUnit(appendStem, o, results, currFiles[i])) == Ok(r.value[i])
  {
    var o :- GetTrimOptions(config);
    var dirs :- GetItem(config, "dir");
    var results :- GetItem(dirs, "results");
    var resultsText :- AsStr(results);
    var _ :- AsStrs(currFiles);
    TrimColumnsUnits(appendStem, o, resultsText, currFiles);
    ParallelMap(run, Sickle, TrimColumns(appendStem, o, resultsText, currFiles))
  }

  /** `[x[k] for x in rows]`: field k of every row, in order; IndexError
      when some row is too short. */
  function Field(rows: seq<seq<string>>, k: nat): (r: Result<seq<string>>)
    ensures r.Ok? <==> forall i :: 0 <= i < |rows| ==> k < |rows[i]|
    ensures r.Ok? ==> |r.value| == |rows| && forall i :: 0 <= i < |rows| ==> r.value[i] == rows[i][k]
    ensures r.Err? ==> r.error == IndexError
    decreases |rows|
  {
    if rows == [] then Ok([])
    else if k >= |rows[0]| then Err(IndexError)
    else
      match Field(rows[1..], k)
      case Err(e) => Err(e)
      case Ok(rest) =>
        assert forall i :: 1 <= i < |rows| ==> rows[1..][i - 1] == rows[i];
        Ok([rows[0][k]] + rest)
  }

  /** `_get_cell_types`: field 7 of every `;`-separated row of the sample
      sheet (rows are given already split). */
  function GetCellTypes(rows: seq<seq<string>>): (r: Result<seq<string>>)
    ensures r.Ok? <==> forall i :: 0 <= i < |rows| ==> |rows[i]| > 7
    ensures r.Ok? ==> |r.value| == |rows| && forall i :: 0 <= i < |rows| ==> r.value[i] == rows[i][7]
  {
    Field(rows, 7)
  }

  /** `_download_encode`: exits when the manifest is missing; otherwise
      downloads the file named in field 0 of every tab-separated row into
      the data directory (default "data"), one download per row, in order. */
  function DownloadEncode(run: Runner, manifestExists: bool, manifest: seq<seq<string>>, config: Value)
    : (r: Result<seq<Value>>)
    ensures !manifestExists ==> r == Err(SystemExit(-1))
    ensures r.Ok? ==>
      && (forall i :: 0 <= i < |manifest| ==> |manifest[i]| > 0)
      && config.VDict? && "dir" in config.entries
      && Get(config.entries["dir"], "data", VStr("data")).Ok?
      && |r.value| == |manifest|
      && var dataDir := Get(config.entries["dir"], "data", VStr("data")).value;
         forall i :: 0 <= i < |manifest| ==>
           run(DownloadRef, [VStr(manifest[i][0]), dataDir]) == Ok(r.value[i])
  {
    if !manifestExists then Err(SystemExit(-1))
    else
      var names :- Field(manifest, 0);
      var dirs :- GetItem(config, "dir");
      var dataDir :- Get(dirs, "data", VStr("data"));
      ColumnsTuples(StrValues(names), [dataDir]);
      assert forall i :: 0 <= i < |names| ==>
        Tuples(StrValues(names), [dataDir])[i] == [VStr(manifest[i][0]), dataDir];
      ParallelMap(run, DownloadRef, Columns(StrValues(names), [dataDir]))
  }
}
