/** Preparation of shRNA differential-expression comparisons: a count table
    is cut down to the condition and background columns of one comparison,
    a configuration record for the R analysis is derived from names in the
    run configuration, the R script is run unless its output already exists,
    and a finished result table can be annotated with gene descriptions.
    Files are sequences of rows; what the code writes is recorded as an
    ordered list of effects. */
module Diffexp {
  import opened Wrappers
  import opened Text
  import opened PyValues
  import opened PosixPath
  import opened Traces

  /** One row of a delimited text file. */
  type Row = seq<string>

  /** The configuration record written for the R analysis. */
  datatype RConfig = RConfig(
    infile: string,
    outBase: string,
    pvalThresh: Value,           // handed on as configured; the float conversion is not modelled
    idName: string,
    modelCondition: seq<Value>,
    topTargets: Option<int>)

  /** What the code does to the world, in order. */
  datatype Effect =
    | MakeDir(path: string)                    // safe_makedir
    | WriteRows(path: string, rows: seq<Row>)  // a file created and filled with these rows
    | WriteYaml(path: string, record: RConfig) // yaml.dump of the record
    | Rscript(args: seq<string>)               // subprocess.check_call

  /** Rows produced by a streaming loop, and how the loop ended; the rows
      written before an exception stay written. */
  datatype Rows = Rows(rows: seq<Row>, result: Result<()>)

  function Prepend(rows: seq<Row>, r: Rows): Rows
  {
    Rows(rows + r.rows, r.result)
  }

  // ---------------------------------------------------------------------
  // _prepare_count_file

  /** The header of the prepared count table; its first name is the id
      column the R configuration refers to. */
  function CountHeader(condition: string, background: string): Row
  {
    [IdName, condition, background, "accession"]
  }

  const IdName := "shrna.id"

  /** `header.index(name)`: a column name that is not in the header (a value
      that is not a string never is) raises ValueError. */
  function HeaderIndex(header: Row, name: Value): (r: Result<nat>)
    ensures r.Ok? <==> name.VStr? && name.s in header
    ensures r.Ok? ==> r.value < |header| && header[r.value] == name.s && name.s !in header[..r.value]
    ensures r.Err? ==> r.error.ValueError?
  {
    if name.VStr? then Index(header, name.s) else Err(ValueError(""))
  }

  /** `parts[i]`. */
  function Field(parts: Row, i: nat): (r: Result<string>)
    ensures r.Ok? <==> i < |parts|
    ensures r.Ok? ==> r.value == parts[i]
  {
    if i < |parts| then Ok(parts[i]) else Err(IndexError)
  }

  /** `int(s)` on a field. */
  function IntOf(s: string): (r: Result<int>)
    ensures r.Ok? <==> ParseInt(s).Some?
    ensures r.Ok? ==> r.value == ParseInt(s).value
  {
    match ParseInt(s)
    case None => Err(ValueError(s))
    case Some(n) => Ok(n)
  }

  /** `"{0}:{1}-{2}".format(*parts[:3])`: fewer than three fields leave a
      placeholder without an argument, which raises IndexError. */
  function TargetId(parts: Row): (r: Result<string>)
    ensures r.Ok? <==> |parts| >= 3
  {
    if |parts| < 3 then Err(IndexError) else Ok(parts[0] + ":" + parts[1] + "-" + parts[2])
  }

  /** One data row of the count table: the row to write, `None` when it is
      filtered out, or the exception it raises. The id is formatted before
      the filter, and the accession field is read only for a row that is
      kept. */
  function CountRow(parts: Row, ci: nat, bi: nat): (r: Result<Option<Row>>)
    ensures r.Ok? && r.value.Some? ==> |r.value.value| == 4
  {
    var targetId :- TargetId(parts);
    var condField :- Field(parts, ci);
    var cond :- IntOf(condField);
    var backField :- Field(parts, bi);
    var back :- IntOf(backField);
    if cond + back > 0 then
      var accession :- Field(parts, 3);
      Ok(Some([targetId, condField, backField, accession]))
    else
      Ok(None)
  }

  /** A row that raises is not well formed; a kept row is well formed, its
      counts sum to more than zero, and it is written reshaped. */
  lemma CountRowSound(parts: Row, ci: nat, bi: nat)
    ensures var r := CountRow(parts, ci, bi);
      && (r.Err? ==> !WellFormed(parts, ci, bi))
      && (r.Ok? && r.value.Some? ==>
            && WellFormed(parts, ci, bi) && Expressed(parts, ci, bi)
            && r.value.value == Reshaped(parts, ci, bi))
  {
  }

  /** The data rows written for `rows`, in order, up to the first row that
      raises. */
  function CountRows(rows: seq<Row>, ci: nat, bi: nat): (r: Rows)
    ensures |r.rows| <= |rows|
    ensures forall j :: 0 <= j < |r.rows| ==> |r.rows[j]| == 4
    decreases |rows|
  {
    if rows == [] then Rows([], Ok(()))
    else
      match CountRow(rows[0], ci, bi)
      case Err(e) => Rows([], Err(e))
      case Ok(None) => CountRows(rows[1..], ci, bi)
      case Ok(Some(out)) => Prepend([out], CountRows(rows[1..], ci, bi))
  }

  /** `_prepare_count_file` on the rows of the original table: an empty
      table raises StopIteration and a condition or background that is not
      a column raises ValueError, in both cases before the new file is
      opened; otherwise the new file gets the fixed header and the kept
      rows, up to the first row that raises. */
  function CountFile(input: seq<Row>, newCount: string, condition: Value, background: Value): (t: Trace<Effect, ()>)
    ensures input == [] ==> t == Trace([], Err(StopIteration))
    ensures input != [] && !(condition.VStr? && condition.s in input[0]) ==>
              t.effects == [] && t.result.Err? && t.result.error.ValueError?
    ensures input != [] && !(background.VStr? && background.s in input[0]) ==>
              t.effects == [] && t.result.Err? && t.result.error.ValueError?
    ensures t.effects != [] <==>
              input != [] && condition.VStr? && condition.s in input[0]
              && background.VStr? && background.s in input[0]
    ensures t.effects != [] ==>
              && |t.effects| == 1 && t.effects[0].WriteRows? && t.effects[0].path == newCount
              && t.effects[0].rows != [] && t.effects[0].rows[0] == CountHeader(condition.s, background.s)
              && var data := CountRows(input[1..], HeaderIndex(input[0], condition).value,
                                       HeaderIndex(input[0], background).value);
                 t.effects[0].rows[1..] == data.rows && t.result == data.result
  {
    if input == [] then Trace([], Err(StopIteration))
    else
      match HeaderIndex(input[0], condition)
      case Err(e) => Trace([], Err(e))
      case Ok(ci) =>
        match HeaderIndex(input[0], background)
        case Err(e) => Trace([], Err(e))
        case Ok(bi) =>
          var data := CountRows(input[1..], ci, bi);
          Trace([WriteRows(newCount, [CountHeader(condition.s, background.s)] + data.rows)], data.result)
  }

  /** `_prepare_count_file` as the script runs it: the header is read, the
      two columns are looked up, the new file is opened and the data rows
      are streamed through the filter. */
  method PrepareCountFile(input: seq<Row>, newCount: string, condition: Value, background: Value)
    returns (effects: seq<Effect>, result: Result<()>)
    ensures Trace(effects, result) == CountFile(input, newCount, condition, background)
  {
    if input == [] { return [], Err(StopIteration); }
    var header := input[0];
    var condIndex := HeaderIndex(header, condition);
    if condIndex.Err? { return [], Err(condIndex.error); }
    var backIndex := HeaderIndex(header, background);
    if backIndex.Err? { return [], Err(backIndex.error); }
    var ci, bi := condIndex.value, backIndex.value;
    var written, outcome := FilterRows(input[1..], ci, bi);
    return [WriteRows(newCount, [CountHeader(condition.s, background.s)] + written)], outcome;
  }

  /** The row loop: each data row in turn, writing the rows that are kept,
      until the rows run out or one raises. */
  method FilterRows(data: seq<Row>, ci: nat, bi: nat) returns (written: seq<Row>, result: Result<()>)
    ensures Rows(written, result) == CountRows(data, ci, bi)
  {
    written := [];
    var i := 0;
    while i < |data|
      invariant 0 <= i <= |data|
      invariant CountRows(data, ci, bi) == Prepend(written, CountRows(data[i..], ci, bi))
    {
      CountAdvance(data, ci, bi, i, written);
      var row := FilterRow(data[i], ci, bi);
      if row.Err? { return written, Err(row.error); }
      if row.value.Some? {
        written := written + [row.value.value];
      }
      i := i + 1;
    }
    assert data[i..] == [];
    assert written + [] == written;
    return written, Ok(());
  }

  /** The body of the row loop: format the id, read and convert the two
      counts, and for an expressed row read the accession. */
  method FilterRow(parts: Row, ci: nat, bi: nat) returns (r: Result<Option<Row>>)
    ensures r == CountRow(parts, ci, bi)
  {
    var targetId := TargetId(parts);
    if targetId.Err? { return Err(targetId.error); }
    var condField := Field(parts, ci);
    if condField.Err? { return Err(condField.error); }
    var cond := IntOf(condField.value);
    if cond.Err? { return Err(cond.error); }
    var backField := Field(parts, bi);
    if backField.Err? { return Err(backField.error); }
    var back := IntOf(backField.value);
    if back.Err? { return Err(back.error); }
    if cond.value + back.value > 0 {
      var accession := Field(parts, 3);
      if accession.Err? { return Err(accession.error); }
      return Ok(Some([targetId.value, condField.value, backField.value, accession.value]));
    }
    return Ok(None);
  }

  /** One turn of the row loop, with the rows written before it. */
  lemma CountAdvance(data: seq<Row>, ci: nat, bi: nat, i: nat, written: seq<Row>)
    requires i < |data|
    ensures var r := CountRow(data[i], ci, bi);
      Prepend(written, CountRows(data[i..], ci, bi))
      == if r.Err? then Rows(written, Err(r.error))
         else if r.value.None? then Prepend(written, CountRows(data[i + 1..], ci, bi))
         else Prepend(written + [r.value.value], CountRows(data[i + 1..], ci, bi))
  {
    CountRowsUnfold(data, ci, bi, i);
    var r := CountRow(data[i], ci, bi);
    if r.Err? {
      assert CountRows(data[i..], ci, bi) == Rows([], Err(r.error));
      assert written + [] == written;
    } else if r.value.None? {
      assert CountRows(data[i..], ci, bi) == CountRows(data[i + 1..], ci, bi);
    } else {
      var rest := CountRows(data[i + 1..], ci, bi);
      assert CountRows(data[i..], ci, bi) == Prepend([r.value.value], rest);
      assert written + ([r.value.value] + rest.rows) == (written + [r.value.value]) + rest.rows;
    }
  }

  lemma CountRowsUnfold(input: seq<Row>, ci: nat, bi: nat, i: nat)
    requires i < |input|
    ensures CountRows(input[i..], ci, bi)
            == match CountRow(input[i], ci, bi)
               case Err(e) => Rows([], Err(e))
               case Ok(None) => CountRows(input[i + 1..], ci, bi)
               case Ok(Some(out)) => Prepend([out], CountRows(input[i + 1..], ci, bi))
  {
    assert input[i..][0] == input[i];
    assert input[i..][1..] == input[i + 1..];
  }

  // The filter as the analysis means it, on rows that cannot raise.

  /** A data row with the four leading fields and integer counts in the two
      selected columns. */
  predicate WellFormed(parts: Row, ci: nat, bi: nat)
  {
    |parts| >= 4 && ci < |parts| && bi < |parts|
    && ParseInt(parts[ci]).Some? && ParseInt(parts[bi]).Some?
  }

  /** The row has reads in the condition or the background: the two counts
      sum to a positive number. */
  predicate Expressed(parts: Row, ci: nat, bi: nat)
    requires WellFormed(parts, ci, bi)
  {
    ParseInt(parts[ci]).value + ParseInt(parts[bi]).value > 0
  }

  /** The output row for an input row: `chrom:start-end`, the two counts and
      the accession. */
  function Reshaped(parts: Row, ci: nat, bi: nat): Row
    requires WellFormed(parts, ci, bi)
  {
    [parts[0] + ":" + parts[1] + "-" + parts[2], parts[ci], parts[bi], parts[3]]
  }

  /** On well-formed rows the filter never raises and writes at most one
      row per input row. */
  lemma {:induction false} CountRowsNoError(rows: seq<Row>, ci: nat, bi: nat)
    requires forall i :: 0 <= i < |rows| ==> WellFormed(rows[i], ci, bi)
    ensures CountRows(rows, ci, bi).result == Ok(())
    ensures |CountRows(rows, ci, bi).rows| <= |rows|
    decreases |rows|
  {
    if rows != [] {
      var tail := rows[1..];
      assert forall i :: 0 <= i < |tail| ==> tail[i] == rows[i + 1];
      CountRowsNoError(tail, ci, bi);
      CountRowWellFormed(rows[0], ci, bi);
    }
  }

  /** On well-formed rows, a row is in the output exactly when it is the
      reshaping of an expressed input row. With `CountRowsAppend` and
      `CountRowWellFormed` this makes the output the expressed rows,
      reshaped, in input order. */
  lemma {:induction false} CountRowsSelect(rows: seq<Row>, ci: nat, bi: nat)
    requires forall i :: 0 <= i < |rows| ==> WellFormed(rows[i], ci, bi)
    ensures forall out :: out in CountRows(rows, ci, bi).rows <==> Source(out, rows, ci, bi)
    decreases |rows|
  {
    if rows != [] {
      var tail := rows[1..];
      assert forall i :: 0 <= i < |tail| ==> tail[i] == rows[i + 1];
      CountRowsSelect(tail, ci, bi);
      CountRowsStep(rows, ci, bi);
      forall out
        ensures out in CountRows(rows, ci, bi).rows <==> Source(out, rows, ci, bi)
      {
        SourceStep(out, rows, ci, bi);
      }
    }
  }

  /** `out` is the reshaping of an expressed row of `rows`. */
  predicate Source(out: Row, rows: seq<Row>, ci: nat, bi: nat)
    requires forall i :: 0 <= i < |rows| ==> WellFormed(rows[i], ci, bi)
  {
    exists i :: 0 <= i < |rows| && Expressed(rows[i], ci, bi) && out == Reshaped(rows[i], ci, bi)
  }

  lemma SourceStep(out: Row, rows: seq<Row>, ci: nat, bi: nat)
    requires rows != [] && forall i :: 0 <= i < |rows| ==> WellFormed(rows[i], ci, bi)
    ensures Source(out, rows, ci, bi) <==>
              (Expressed(rows[0], ci, bi) && out == Reshaped(rows[0], ci, bi)) || Source(out, rows[1..], ci, bi)
  {
    SourceTailWellFormed(rows, ci, bi);
    if Source(out, rows, ci, bi) {
      SourceFromRows(out, rows, ci, bi);
    }
    if Source(out, rows[1..], ci, bi) {
      SourceFromTail(out, rows, ci, bi);
    }
  }

  lemma SourceTailWellFormed(rows: seq<Row>, ci: nat, bi: nat)
    requires rows != [] && forall i :: 0 <= i < |rows| ==> WellFormed(rows[i], ci, bi)
    ensures forall i :: 0 <= i < |rows[1..]| ==> WellFormed(rows[1..][i], ci, bi)
  {
    forall i | 0 <= i < |rows[1..]| ensures WellFormed(rows[1..][i], ci, bi) {
      assert rows[1..][i] == rows[i + 1];
    }
  }

  lemma SourceFromRows(out: Row, rows: seq<Row>, ci: nat, bi: nat)
    requires rows != [] && forall i :: 0 <= i < |rows| ==> WellFormed(rows[i], ci, bi)
    requires forall i :: 0 <= i < |rows[1..]| ==> WellFormed(rows[1..][i], ci, bi)
    requires Source(out, rows, ci, bi)
    ensures (Expressed(rows[0], ci, bi) && out == Reshaped(rows[0], ci, bi)) || Source(out, rows[1..], ci, bi)
  {
    var i :| 0 <= i < |rows| && Expressed(rows[i], ci, bi) && out == Reshaped(rows[i], ci, bi);
    if i > 0 {
      assert rows[1..][i - 1] == rows[i];
    }
  }

  lemma SourceFromTail(out: Row, rows: seq<Row>, ci: nat, bi: nat)
    requires rows != [] && forall i :: 0 <= i < |rows| ==> WellFormed(rows[i], ci, bi)
    requires forall i :: 0 <= i < |rows[1..]| ==> WellFormed(rows[1..][i], ci, bi)
    requires Source(out, rows[1..], ci, bi)
    ensures Source(out, rows, ci, bi)
  {
    var i :| 0 <= i < |rows[1..]| && Expressed(rows[1..][i], ci, bi) && out == Reshaped(rows[1..][i], ci, bi);
    assert rows[i + 1] == rows[1..][i];
  }

  lemma CountRowsStep(rows: seq<Row>, ci: nat, bi: nat)
    requires rows != [] && WellFormed(rows[0], ci, bi)
    ensures CountRows(rows, ci, bi).rows
            == (if Expressed(rows[0], ci, bi) then [Reshaped(rows[0], ci, bi)] else []) + CountRows(rows[1..], ci, bi).rows
  {
    CountRowWellFormed(rows[0], ci, bi);
    if !Expressed(rows[0], ci, bi) {
      assert [] + CountRows(rows[1..], ci, bi).rows == CountRows(rows[1..], ci, bi).rows;
    }
  }

  /** A well-formed row never raises: it is written, reshaped, exactly
      when it is expressed. */
  lemma CountRowWellFormed(parts: Row, ci: nat, bi: nat)
    requires WellFormed(parts, ci, bi)
    ensures CountRow(parts, ci, bi) == if Expressed(parts, ci, bi) then Ok(Some(Reshaped(parts, ci, bi))) else Ok(None)
  {
  }

  /** The table is streamed: the output for `a + b` is the output for `a`
      followed by the output for `b`, unless a row of `a` raised first. */
  lemma {:induction false} CountRowsAppend(a: seq<Row>, b: seq<Row>, ci: nat, bi: nat)
    ensures var ra := CountRows(a, ci, bi);
      CountRows(a + b, ci, bi) == if ra.result.Err? then ra else Prepend(ra.rows, CountRows(b, ci, bi))
    decreases |a|
  {
    if a == [] {
      assert a + b == b;
    } else {
      assert (a + b)[0] == a[0] && (a + b)[1..] == a[1..] + b;
      CountRowsAppend(a[1..], b, ci, bi);
      var ra' := CountRows(a[1..], ci, bi);
      var rb := CountRows(b, ci, bi);
      match CountRow(a[0], ci, bi)
      case Err(_) =>
      case Ok(None) =>
      case Ok(Some(out)) =>
        if ra'.result.Ok? {
          assert [out] + (ra'.rows + rb.rows) == ([out] + ra'.rows) + rb.rows;
        }
    }
  }

  // ---------------------------------------------------------------------
  // _prepare_yaml_config

  /** `config["dir"][role]`, the value as configured. */
  function ConfigDir(config: Value, role: string): (r: Result<Value>)
    ensures r.Ok? <==> && config.VDict? && "dir" in config.entries && config.entries["dir"].VDict?
                       && role in config.entries["dir"].entries
    ensures r.Ok? ==> r.value == config.entries["dir"].entries[role]
  {
    var dirs :- GetItem(config, "dir");
    GetItem(dirs, role)
  }

  /** `safe_makedir(dir)`: an empty value (`None`, `0`, `""`) is handed back
      untouched; any other goes to `os.path.exists`, which raises TypeError
      unless it is a string, and the directory is made. The value is
      returned as it came. */
  function SafeMakedir(dir: Value): (t: Trace<Effect, Value>)
    ensures t.result.Ok? <==> !Truthy(dir) || dir.VStr?
    ensures t.result.Ok? ==> t.result.value == dir
    ensures t.effects == [] <==> !(Truthy(dir) && dir.VStr?)
    ensures t.effects != [] ==> t.effects == [MakeDir(dir.s)] && dir.s != ""
  {
    if !Truthy(dir) then Trace([], Ok(dir))
    else if dir.VStr? then Trace([MakeDir(dir.s)], Ok(dir))
    else Trace([], Err(TypeError))
  }

  /** `"{exp}-{name}".format(exp=config["experiment_name"], name=condition)`. */
  function Base(config: Value, condition: Value): (r: Result<string>)
    ensures r.Ok? <==> && config.VDict? && "experiment_name" in config.entries
                       && ToStr(config.entries["experiment_name"]).Ok? && ToStr(condition).Ok?
    ensures r.Ok? ==> r.value == ToStr(config.entries["experiment_name"]).value + "-" + ToStr(condition).value
    ensures (&& config.VDict? && "experiment_name" in config.entries
             && config.entries["experiment_name"].VStr? && condition.VStr?) ==>
              r == Ok(config.entries["experiment_name"].s + "-" + condition.s)
  {
    var experiment :- GetItem(config, "experiment_name");
    var exp :- ToStr(experiment);
    var name :- ToStr(condition);
    Ok(exp + "-" + name)
  }

  /** `config["algorithm"].get("top_targets", None)`, converted with `int`
      only when it is truthy. */
  function TopTargets(algorithm: Value): (r: Result<Option<int>>)
    ensures r.Ok? && r.value.Some? ==> algorithm.VDict? && Truthy(Get(algorithm, "top_targets", VNone).value)
    ensures algorithm.VDict? && Truthy(Get(algorithm, "top_targets", VNone).value) ==>
              r == (match ToInt(Get(algorithm, "top_targets", VNone).value)
                    case Ok(n) => Ok(Some(n))
                    case Err(e) => Err(e))
    ensures algorithm.VDict? && !Truthy(Get(algorithm, "top_targets", VNone).value) ==> r == Ok(None)
  {
    var top :- Get(algorithm, "top_targets", VNone);
    if Truthy(top) then
      var n :- ToInt(top);
      Ok(Some(n))
    else
      Ok(None)
  }

  /** `_prepare_yaml_config`: make the temporary and the expression
      directories, derive the record from `base`, and write it as YAML next
      to the count table. Returns the record and the YAML file's path. The
      record's values are evaluated in the source order: the two joins, then
      the threshold and the number of top targets. */
  function PrepareYamlConfig(condition: Value, background: Value, config: Value): (t: Trace<Effect, (RConfig, string)>)
    ensures t.result.Ok? ==>
      && ConfigDir(config, "tmp").Ok? && ConfigDir(config, "expression").Ok? && Base(config, condition).Ok?
      && var (tmpDir, outDir, base) := (ConfigDir(config, "tmp").value, ConfigDir(config, "expression").value,
                                        Base(config, condition).value);
         var (record, configFile) := t.result.value;
         && JoinValues(tmpDir, VStr(base + "-counts.csv")) == Ok(record.infile)
         && JoinValues(outDir, VStr(base)) == Ok(record.outBase)
         && JoinValues(tmpDir, VStr(base + "-config.yaml")) == Ok(configFile)
         && record.idName == IdName
         && record.modelCondition == [condition, background]
         && RecordFields(config).Ok?
         && record.pvalThresh == config.entries["algorithm"].entries["pval_thresh"]
         && record.topTargets == TopTargets(config.entries["algorithm"]).value
         && t.effects == SafeMakedir(tmpDir).effects + SafeMakedir(outDir).effects + [WriteYaml(configFile, record)]
    ensures t.result.Err? ==> |t.effects| <= 2 && forall e :: e in t.effects ==> e.MakeDir?
    ensures forall e :: e in t.effects && e.MakeDir? ==> e.path != ""
  {
    match ConfigDir(config, "tmp")
    case Err(e) => Trace([], Err(e))
    case Ok(tmpDir) =>
      var madeTmp := SafeMakedir(tmpDir);
      if madeTmp.result.Err? then Trace(madeTmp.effects, Err(madeTmp.result.error))
      else
        match ConfigDir(config, "expression")
        case Err(e) => Trace(madeTmp.effects, Err(e))
        case Ok(outDir) =>
          var madeOut := SafeMakedir(outDir);
          var made := madeTmp.effects + madeOut.effects;
          if madeOut.result.Err? then Trace(made, Err(madeOut.result.error))
          else
            match Base(config, condition)
            case Err(e) => Trace(made, Err(e))
            case Ok(base) =>
              match JoinValues(tmpDir, VStr(base + "-counts.csv"))
              case Err(e) => Trace(made, Err(e))
              case Ok(infile) =>
                match JoinValues(outDir, VStr(base))
                case Err(e) => Trace(made, Err(e))
                case Ok(outBase) =>
                  match RecordFields(config)
                  case Err(e) => Trace(made, Err(e))
                  case Ok(fields) =>
                    var record := RConfig(infile, outBase, fields.0, IdName, [condition, background], fields.1);
                    match JoinValues(tmpDir, VStr(base + "-config.yaml"))
                    case Err(e) => Trace(made, Err(e))
                    case Ok(configFile) => Trace(made + [WriteYaml(configFile, record)], Ok((record, configFile)))
  }

  /** With `tmp: ~` the entry is passed over by `safe_makedir`, so the
      expression directory is still made before the missing experiment name
      raises. */
  lemma NoneTmpDirPassedOver()
    ensures var dirs := VDict(map["tmp" := VNone, "expression" := VStr("expr")]);
      var config := VDict(map["dir" := dirs, "algorithm" := VDict(map["pval_thresh" := VStr("0.05")])]);
      PrepareYamlConfig(VStr("c"), VStr("b"), config) == Trace([MakeDir("expr")], Err(KeyError("experiment_name")))
  {
    var dirs := VDict(map["tmp" := VNone, "expression" := VStr("expr")]);
    var config := VDict(map["dir" := dirs, "algorithm" := VDict(map["pval_thresh" := VStr("0.05")])]);
    assert ConfigDir(config, "tmp") == Ok(VNone);
    assert ConfigDir(config, "expression") == Ok(VStr("expr"));
    assert Base(config, VStr("c")) == Err(KeyError("experiment_name"));
  }

  /** With `tmp: ~` and an experiment name, the expression directory is made
      and the join of `None` with the count table's name raises. */
  lemma NoneTmpDirJoinRaises()
    ensures var dirs := VDict(map["tmp" := VNone, "expression" := VStr("expr")]);
      var config := VDict(map["dir" := dirs, "experiment_name" := VStr("e")]);
      PrepareYamlConfig(VStr("c"), VStr("b"), config) == Trace([MakeDir("expr")], Err(TypeError))
  {
    var dirs := VDict(map["tmp" := VNone, "expression" := VStr("expr")]);
    var config := VDict(map["dir" := dirs, "experiment_name" := VStr("e")]);
    assert ConfigDir(config, "tmp") == Ok(VNone);
    assert ConfigDir(config, "expression") == Ok(VStr("expr"));
    assert "e" + "-" + "c" == "e-c";
    assert Base(config, VStr("c")) == Ok("e-c");
  }

  /** With `tmp: ""` no directory is made for it, and the count table and
      the record are written in the working directory. */
  lemma EmptyTmpDirMakesNothing(condition: Value, background: Value, config: Value)
    requires ConfigDir(config, "tmp") == Ok(VStr(""))
    ensures var t := PrepareYamlConfig(condition, background, config);
      t.result.Ok? ==>
        && t.result.value.0.infile == Base(config, condition).value + "-counts.csv"
        && t.result.value.1 == Base(config, condition).value + "-config.yaml"
        && t.effects == SafeMakedir(ConfigDir(config, "expression").value).effects
                        + [WriteYaml(t.result.value.1, t.result.value.0)]
  {
    assert SafeMakedir(VStr("")).effects == [];
  }

  /** The fields of the record read from `config["algorithm"]`: the p-value
      threshold and the optional number of top targets. */
  function RecordFields(config: Value): (r: Result<(Value, Option<int>)>)
    ensures r.Ok? <==> && config.VDict? && "algorithm" in config.entries && config.entries["algorithm"].VDict?
                       && "pval_thresh" in config.entries["algorithm"].entries
                       && TopTargets(config.entries["algorithm"]).Ok?
    ensures r.Ok? ==> r.value == (config.entries["algorithm"].entries["pval_thresh"],
                                  TopTargets(config.entries["algorithm"]).value)
  {
    var algorithm :- GetItem(config, "algorithm");
    var pval :- GetItem(algorithm, "pval_thresh");
    var top :- TopTargets(algorithm);
    Ok((pval, top))
  }

  /** The R configuration reads the table `_prepare_count_file` writes: its
      input file is the count table's path, its id column is the first
      header name, and its model's conditions are the next two. */
  lemma RecordMatchesCountTable(condition: Value, background: Value, config: Value, input: seq<Row>)
    requires PrepareYamlConfig(condition, background, config).result.Ok?
    ensures var record := PrepareYamlConfig(condition, background, config).result.value.0;
      var t := CountFile(input, record.infile, condition, background);
      t.effects != [] ==>
        && t.effects[0].path == record.infile
        && t.effects[0].rows[0][0] == record.idName
        && [VStr(t.effects[0].rows[0][1]), VStr(t.effects[0].rows[0][2])] == record.modelCondition
  {
  }

  /** The three files of one comparison never coincide: the count table
      (`.csv`) and the YAML record (`.yaml`) in the temporary directory and
      the R script's result (`.tsv`) under the expression directory end
      differently, whatever the directories and the base name. */
  lemma ComparisonFilesDistinct(tmp: string, outDir: string, base: string)
    ensures var infile, configFile := Join(tmp, base + "-counts.csv"), Join(tmp, base + "-config.yaml");
      var diffexpFile := Join(outDir, base) + "-diffexp.tsv";
      infile != configFile && infile != diffexpFile && configFile != diffexpFile
  {
    var infile, configFile := Join(tmp, base + "-counts.csv"), Join(tmp, base + "-config.yaml");
    var diffexpFile := Join(outDir, base) + "-diffexp.tsv";
    assert EndsWith("-counts.csv", ".csv");
    assert EndsWith("-config.yaml", "yaml");
    assert EndsWith("-diffexp.tsv", ".tsv");
    JoinedEnding(tmp, base, "-counts.csv", ".csv");
    JoinedEnding(tmp, base, "-config.yaml", "yaml");
    AppendedEnding(Join(outDir, base), "-diffexp.tsv", ".tsv");
    DifferentEndings(infile, configFile, ".csv", "yaml");
    DifferentEndings(infile, diffexpFile, ".csv", ".tsv");
    DifferentEndings(configFile, diffexpFile, "yaml", ".tsv");
  }

  /** `x` ends with `t`. */
  predicate EndsWith(x: string, t: string)
  {
    |t| <= |x| && x[|x| - |t|..] == t
  }

  lemma AppendedEnding(p: string, suffix: string, ending: string)
    requires EndsWith(suffix, ending)
    ensures EndsWith(p + suffix, ending)
  {
    assert (p + suffix)[|p + suffix| - |ending|..] == suffix[|suffix| - |ending|..];
  }

  /** A path joined from a base and a suffix ends as the suffix does. */
  lemma JoinedEnding(dir: string, base: string, suffix: string, ending: string)
    requires EndsWith(suffix, ending)
    ensures EndsWith(Join(dir, base + suffix), ending)
  {
    AppendedEnding(base, suffix, ending);
    var name := base + suffix;
    var p := Join(dir, name);
    assert p == name || p == dir + name || p == dir + "/" + name;
    if p != name {
      var q := p[..|p| - |name|];
      assert p == q + name;
      AppendedEnding(q, name, ending);
    }
  }

  lemma DifferentEndings(x: string, y: string, s: string, t: string)
    requires |s| == |t| && s != t
    requires EndsWith(x, s) && EndsWith(y, t)
    ensures x != y
  {
  }

  // ---------------------------------------------------------------------
  // noreplicate_comparison

  /** `"{0}-diffexp.tsv".format(cur_config["out_base"])`. */
  function DiffexpFile(record: RConfig): (f: string)
    ensures EndsWith(f, "-diffexp.tsv") && f[..|f| - 12] == record.outBase
  {
    var f := record.outBase + "-diffexp.tsv";
    assert f[|f| - 12..] == "-diffexp.tsv";
    f
  }

  /** `config["program"]["diffexp"]`, the R script, used as an argument. */
  function DiffexpProgram(config: Value): (r: Result<string>)
    ensures r.Ok? <==> && config.VDict? && "program" in config.entries && config.entries["program"].VDict?
                       && "diffexp" in config.entries["program"].entries
                       && config.entries["program"].entries["diffexp"].VStr?
    ensures r.Ok? ==> r.value == config.entries["program"].entries["diffexp"].s
  {
    var program :- GetItem(config, "program");
    var script :- GetItem(program, "diffexp");
    AsStr(script)
  }

  /** `noreplicate_comparison`: write the YAML record and the reduced count
      table, then run the R script on the record unless its result file is
      already present (a non-empty file in `present`); `rscript` says
      whether the script exits successfully. Returns the result file. */
  function NoreplicateComparison(countTable: seq<Row>, condition: Value, background: Value, config: Value,
                                 present: set<string>, rscript: seq<string> -> bool): (t: Trace<Effect, string>)
    ensures t.result.Ok? ==>
      && PrepareYamlConfig(condition, background, config).result.Ok?
      && t.result.value == DiffexpFile(PrepareYamlConfig(condition, background, config).result.value.0)
  {
    var y := PrepareYamlConfig(condition, background, config);
    if y.result.Err? then Trace(y.effects, Err(y.result.error))
    else
      var (record, configFile) := y.result.value;
      var c := CountFile(countTable, record.infile, condition, background);
      var effects := y.effects + c.effects;
      if c.result.Err? then Trace(effects, Err(c.result.error))
      else
        var diffexpFile := DiffexpFile(record);
        if diffexpFile in present then Trace(effects, Ok(diffexpFile))
        else
          match DiffexpProgram(config)
          case Err(e) => Trace(effects, Err(e))
          case Ok(program) =>
            var args := ["Rscript", program, configFile];
            Trace(effects + [Rscript(args)], if rscript(args) then Ok(diffexpFile) else Err(CalledProcessError(args)))
  }

  /** The R script is called only when the result file is absent, as
      `["Rscript", program, config_file]`; when the file was absent and the
      comparison succeeded, that call was its last effect. */
  lemma NoreplicateRscript(countTable: seq<Row>, condition: Value, background: Value, config: Value,
                           present: set<string>, rscript: seq<string> -> bool)
    ensures var t := NoreplicateComparison(countTable, condition, background, config, present, rscript);
      var y := PrepareYamlConfig(condition, background, config);
      && (forall e :: e in t.effects && e.Rscript? ==>
            && y.result.Ok? && DiffexpFile(y.result.value.0) !in present
            && |e.args| == 3 && e.args[0] == "Rscript" && DiffexpProgram(config) == Ok(e.args[1])
            && e.args[2] == y.result.value.1)
      && (t.result.Ok? && t.result.value !in present ==> t.effects != [] && t.effects[|t.effects| - 1].Rscript?)
  {
    var y := PrepareYamlConfig(condition, background, config);
    var t := NoreplicateComparison(countTable, condition, background, config, present, rscript);
    PreparationRunsNoScript(condition, background, config);
    if y.result.Err? {
      assert t.effects == y.effects;
    } else {
      var (record, configFile) := y.result.value;
      var c := CountFile(countTable, record.infile, condition, background);
      var effects := y.effects + c.effects;
      CountFileRunsNoScript(countTable, record.infile, condition, background);
      assert forall e :: e in effects ==> !e.Rscript?;
      if c.result.Err? {
        assert t == Trace(effects, Err(c.result.error));
      } else if DiffexpFile(record) in present {
        assert t == Trace(effects, Ok(DiffexpFile(record)));
      } else if DiffexpProgram(config).Err? {
        assert t == Trace(effects, Err(DiffexpProgram(config).error));
      } else {
        var args := ["Rscript", DiffexpProgram(config).value, configFile];
        assert t.effects == effects + [Rscript(args)];
      }
    }
  }

  lemma PreparationRunsNoScript(condition: Value, background: Value, config: Value)
    ensures forall e :: e in PrepareYamlConfig(condition, background, config).effects ==> !e.Rscript?
  {
  }

  lemma CountFileRunsNoScript(input: seq<Row>, newCount: string, condition: Value, background: Value)
    ensures forall e :: e in CountFile(input, newCount, condition, background).effects ==> !e.Rscript?
  {
    var c := CountFile(input, newCount, condition, background);
    assert c.effects == [] || c.effects == [c.effects[0]];
  }

  /** Once a comparison's result is present, repeating the comparison
      rewrites its inputs but does not run the R script again. */
  lemma ComparisonIdempotent(countTable: seq<Row>, condition: Value, background: Value, config: Value,
                             present: set<string>, rscript: seq<string> -> bool)
    requires NoreplicateComparison(countTable, condition, background, config, present, rscript).result.Ok?
    ensures var first := NoreplicateComparison(countTable, condition, background, config, present, rscript);
      var again := NoreplicateComparison(countTable, condition, background, config, present + {first.result.value}, rscript);
      && again.result == first.result
      && (forall e :: e in again.effects ==> !e.Rscript?)
      && (forall e :: e in again.effects ==> e in first.effects)
  {
    var y := PrepareYamlConfig(condition, background, config);
    var (record, configFile) := y.result.value;
    var c := CountFile(countTable, record.infile, condition, background);
    var first := NoreplicateComparison(countTable, condition, background, config, present, rscript);
    var effects := y.effects + c.effects;
    assert first.result == Ok(DiffexpFile(record));
    if DiffexpFile(record) !in present {
      var args := ["Rscript", DiffexpProgram(config).value, configFile];
      assert first.effects == effects + [Rscript(args)];
    }
    var again := NoreplicateComparison(countTable, condition, background, config, present + {first.result.value}, rscript);
    assert again == Trace(effects, first.result);
    PreparationRunsNoScript(condition, background, config);
    CountFileRunsNoScript(countTable, record.infile, condition, background);
  }

  // ---------------------------------------------------------------------
  // do_comparisons

  /** `cmp_info["conditions"]`, iterated over. */
  function ConditionsOf(cmp: Value): Result<seq<Value>>
  {
    var conditions :- GetItem(cmp, "conditions");
    AsList(conditions)
  }

  /** The inner loop of `do_comparisons`: each condition of one comparison
      against that comparison's background, which is looked up anew for
      every condition. The result is the set of present result files. */
  function RunConditions(countTable: seq<Row>, cmp: Value, conditions: seq<Value>, config: Value,
                         present: set<string>, rscript: seq<string> -> bool): (t: Trace<Effect, set<string>>)
    ensures t.result.Ok? ==> present <= t.result.value
    ensures t.result.Ok? ==> forall f :: f in t.result.value && f !in present ==> EndsWith(f, "-diffexp.tsv")
    decreases |conditions|
  {
    if conditions == [] then Trace([], Ok(present))
    else
      match GetItem(cmp, "background")
      case Err(e) => Trace([], Err(e))
      case Ok(background) =>
        var n := NoreplicateComparison(countTable, conditions[0], background, config, present, rscript);
        if n.result.Err? then Trace(n.effects, Err(n.result.error))
        else Then(n.effects, RunConditions(countTable, cmp, conditions[1..], config, present + {n.result.value}, rscript))
  }

  /** The outer loop of `do_comparisons`: the comparisons in order. */
  function RunComparisons(countTable: seq<Row>, comparisons: seq<Value>, config: Value,
                          present: set<string>, rscript: seq<string> -> bool): (t: Trace<Effect, set<string>>)
    ensures t.result.Ok? ==> present <= t.result.value
    ensures t.result.Ok? ==> forall f :: f in t.result.value && f !in present ==> EndsWith(f, "-diffexp.tsv")
    decreases |comparisons|
  {
    if comparisons == [] then Trace([], Ok(present))
    else
      match ConditionsOf(comparisons[0])
      case Err(e) => Trace([], Err(e))
      case Ok(conditions) =>
        var r := RunConditions(countTable, comparisons[0], conditions, config, present, rscript);
        if r.result.Err? then r
        else Then(r.effects, RunComparisons(countTable, comparisons[1..], config, r.result.value, rscript))
  }

  /** `do_comparisons` on the rows of the count table. */
  function DoComparisonsRun(countTable: seq<Row>, config: Value, present: set<string>,
                            rscript: seq<string> -> bool): (t: Trace<Effect, set<string>>)
    ensures !(config.VDict? && "comparisons" in config.entries && config.entries["comparisons"].VList?) ==>
              t.effects == [] && t.result.Err?
    ensures t.result.Ok? ==> present <= t.result.value
    ensures t.result.Ok? ==> forall f :: f in t.result.value && f !in present ==> EndsWith(f, "-diffexp.tsv")
  {
    match GetItem(config, "comparisons")
    case Err(e) => Trace([], Err(e))
    case Ok(value) =>
      match AsList(value)
      case Err(e) => Trace([], Err(e))
      case Ok(comparisons) => RunComparisons(countTable, comparisons, config, present, rscript)
  }

  /** `do_comparisons` as the script runs it: two nested loops. The present
      result files are tracked so that a comparison repeated later finds
      the file its first run made. */
  method DoComparisons(countTable: seq<Row>, config: Value, present0: set<string>, rscript: seq<string> -> bool)
    returns (effects: seq<Effect>, result: Result<set<string>>)
    ensures Trace(effects, result) == DoComparisonsRun(countTable, config, present0, rscript)
  {
    var value := GetItem(config, "comparisons");
    if value.Err? { return [], Err(value.error); }
    var list := AsList(value.value);
    if list.Err? { return [], Err(list.error); }
    var comparisons := list.value;
    ghost var whole := RunComparisons(countTable, comparisons, config, present0, rscript);
    var present := present0;
    effects := [];
    var k := 0;
    while k < |comparisons|
      invariant 0 <= k <= |comparisons|
      invariant Then(effects, RunComparisons(countTable, comparisons[k..], config, present, rscript)) == whole
    {
      ComparisonsAdvance(countTable, comparisons, config, present, rscript, k, effects);
      var cmpInfo := comparisons[k];
      var conditions := ConditionsOf(cmpInfo);
      if conditions.Err? { return effects, Err(conditions.error); }
      var innerEffects, innerResult := CompareConditions(countTable, cmpInfo, conditions.value, config, present, rscript);
      effects := effects + innerEffects;
      if innerResult.Err? { return effects, Err(innerResult.error); }
      present := innerResult.value;
      k := k + 1;
    }
    assert comparisons[k..] == [];
    assert effects + [] == effects;
    return effects, Ok(present);
  }

  /** The inner loop of `do_comparisons` for one comparison. */
  method CompareConditions(countTable: seq<Row>, cmpInfo: Value, conditions: seq<Value>, config: Value,
                           present0: set<string>, rscript: seq<string> -> bool)
    returns (effects: seq<Effect>, result: Result<set<string>>)
    ensures Trace(effects, result) == RunConditions(countTable, cmpInfo, conditions, config, present0, rscript)
  {
    ghost var whole := RunConditions(countTable, cmpInfo, conditions, config, present0, rscript);
    var present := present0;
    effects := [];
    var j := 0;
    while j < |conditions|
      invariant 0 <= j <= |conditions|
      invariant Then(effects, RunConditions(countTable, cmpInfo, conditions[j..], config, present, rscript)) == whole
    {
      ConditionsAdvance(countTable, cmpInfo, conditions, config, present, rscript, j, effects);
      var background := GetItem(cmpInfo, "background");
      if background.Err? { return effects, Err(background.error); }
      var outcome := NoreplicateComparison(countTable, conditions[j], background.value, config, present, rscript);
      effects := effects + outcome.effects;
      if outcome.result.Err? { return effects, Err(outcome.result.error); }
      present := present + {outcome.result.value};
      j := j + 1;
    }
    assert conditions[j..] == [];
    assert effects + [] == effects;
    return effects, Ok(present);
  }

  /** One turn of the outer loop, with the effects before it. */
  lemma ComparisonsAdvance(countTable: seq<Row>, comparisons: seq<Value>, config: Value,
                           present: set<string>, rscript: seq<string> -> bool, k: nat, effects: seq<Effect>)
    requires k < |comparisons|
    ensures var conditions := ConditionsOf(comparisons[k]);
      Then(effects, RunComparisons(countTable, comparisons[k..], config, present, rscript))
      == if conditions.Err? then Trace(effects, Err(conditions.error))
         else
           var r := RunConditions(countTable, comparisons[k], conditions.value, config, present, rscript);
           if r.result.Err? then Trace(effects + r.effects, r.result)
           else Then(effects + r.effects, RunComparisons(countTable, comparisons[k + 1..], config, r.result.value, rscript))
  {
    ComparisonsUnfold(countTable, comparisons, config, present, rscript, k);
    var conditions := ConditionsOf(comparisons[k]);
    if conditions.Err? {
      assert effects + [] == effects;
    } else {
      var r := RunConditions(countTable, comparisons[k], conditions.value, config, present, rscript);
      if r.result.Ok? {
        ThenThen(effects, r.effects, RunComparisons(countTable, comparisons[k + 1..], config, r.result.value, rscript));
      }
    }
  }

  lemma ComparisonsUnfold(countTable: seq<Row>, comparisons: seq<Value>, config: Value,
                          present: set<string>, rscript: seq<string> -> bool, k: nat)
    requires k < |comparisons|
    ensures var conditions := ConditionsOf(comparisons[k]);
      RunComparisons(countTable, comparisons[k..], config, present, rscript)
      == if conditions.Err? then Trace([], Err(conditions.error))
         else
           var r := RunConditions(countTable, comparisons[k], conditions.value, config, present, rscript);
           if r.result.Err? then r
           else Then(r.effects, RunComparisons(countTable, comparisons[k + 1..], config, r.result.value, rscript))
  {
    assert comparisons[k..][0] == comparisons[k];
    assert comparisons[k..][1..] == comparisons[k + 1..];
  }

  /** One turn of the inner loop, with the effects before it. */
  lemma ConditionsAdvance(countTable: seq<Row>, cmp: Value, conditions: seq<Value>, config: Value,
                          present: set<string>, rscript: seq<string> -> bool, j: nat, effects: seq<Effect>)
    requires j < |conditions|
    ensures var background := GetItem(cmp, "background");
      Then(effects, RunConditions(countTable, cmp, conditions[j..], config, present, rscript))
      == if background.Err? then Trace(effects, Err(background.error))
         else
           var n := NoreplicateComparison(countTable, conditions[j], background.value, config, present, rscript);
           if n.result.Err? then Trace(effects + n.effects, Err(n.result.error))
           else Then(effects + n.effects, RunConditions(countTable, cmp, conditions[j + 1..], config,
                                                        present + {n.result.value}, rscript))
  {
    ConditionsUnfold(countTable, cmp, conditions, config, present, rscript, j);
    var background := GetItem(cmp, "background");
    if background.Err? {
      assert effects + [] == effects;
    } else {
      var n := NoreplicateComparison(countTable, conditions[j], background.value, config, present, rscript);
      if n.result.Ok? {
        ThenThen(effects, n.effects, RunConditions(countTable, cmp, conditions[j + 1..], config, present + {n.result.value}, rscript));
      }
    }
  }

  lemma ConditionsUnfold(countTable: seq<Row>, cmp: Value, conditions: seq<Value>, config: Value,
                         present: set<string>, rscript: seq<string> -> bool, j: nat)
    requires j < |conditions|
    ensures var background := GetItem(cmp, "background");
      RunConditions(countTable, cmp, conditions[j..], config, present, rscript)
      == if background.Err? then Trace([], Err(background.error))
         else
           var n := NoreplicateComparison(countTable, conditions[j], background.value, config, present, rscript);
           if n.result.Err? then Trace(n.effects, Err(n.result.error))
           else Then(n.effects, RunConditions(countTable, cmp, conditions[j + 1..], config,
                                              present + {n.result.value}, rscript))
  {
    assert conditions[j..][0] == conditions[j];
    assert conditions[j..][1..] == conditions[j + 1..];
  }

  /** One comparison to run: a condition and the background it is compared with. */
  datatype Pair = Pair(condition: Value, background: Value)

  /** The pairs a run enumerates, and whether the enumeration reached the
      end or stopped at a comparison whose conditions or background could
      not be read. */
  datatype Enumeration = Enumeration(pairs: seq<Pair>, stop: Result<()>)

  /** Every condition of a comparison, paired with its background. */
  function PairsWith(conditions: seq<Value>, background: Value): (ps: seq<Pair>)
    ensures |ps| == |conditions|
    ensures forall i :: 0 <= i < |conditions| ==> ps[i] == Pair(conditions[i], background)
  {
    seq(|conditions|, i requires 0 <= i < |conditions| => Pair(conditions[i], background))
  }

  /** The (condition, background) pairs of the comparisons, comparison by
      comparison and condition by condition. A comparison without
      conditions contributes nothing, even without a background. */
  function Pairs(comparisons: seq<Value>): Enumeration
    decreases |comparisons|
  {
    if comparisons == [] then Enumeration([], Ok(()))
    else
      match ConditionsOf(comparisons[0])
      case Err(e) => Enumeration([], Err(e))
      case Ok(conditions) =>
        if conditions == [] then Pairs(comparisons[1..])
        else
          match GetItem(comparisons[0], "background")
          case Err(e) => Enumeration([], Err(e))
          case Ok(background) =>
            var rest := Pairs(comparisons[1..]);
            Enumeration(PairsWith(conditions, background) + rest.pairs, rest.stop)
  }

  /** The pairs run one after the other, each seeing the result files of
      those before it. */
  function RunPairs(countTable: seq<Row>, pairs: seq<Pair>, config: Value,
                    present: set<string>, rscript: seq<string> -> bool): Trace<Effect, set<string>>
    decreases |pairs|
  {
    if pairs == [] then Trace([], Ok(present))
    else
      var n := NoreplicateComparison(countTable, pairs[0].condition, pairs[0].background, config, present, rscript);
      if n.result.Err? then Trace(n.effects, Err(n.result.error))
      else Then(n.effects, RunPairs(countTable, pairs[1..], config, present + {n.result.value}, rscript))
  }

  /** The nested loops of `do_comparisons` run exactly the flat list of
      (condition, background) pairs in nested order; when the enumeration
      stops early, its error ends the run after the pairs before it. */
  lemma {:induction false} NestedIsFlat(countTable: seq<Row>, comparisons: seq<Value>, config: Value,
                                        present: set<string>, rscript: seq<string> -> bool)
    ensures var e := Pairs(comparisons);
      var r := RunPairs(countTable, e.pairs, config, present, rscript);
      RunComparisons(countTable, comparisons, config, present, rscript)
      == if r.result.Err? || e.stop.Ok? then r else Trace(r.effects, Err(e.stop.error))
    decreases |comparisons|, 1
  {
    if comparisons != [] {
      var cmp := comparisons[0];
      var conditions := ConditionsOf(cmp);
      if conditions.Ok? {
        if conditions.value == [] {
          NestedIsFlat(countTable, comparisons[1..], config, present, rscript);
          assert RunConditions(countTable, cmp, [], config, present, rscript) == Trace([], Ok(present));
          var rest := RunComparisons(countTable, comparisons[1..], config, present, rscript);
          assert [] + rest.effects == rest.effects;
        } else if GetItem(cmp, "background").Ok? {
          NestedIsFlatAt(countTable, comparisons, config, present, rscript);
        }
      }
    }
  }

  /** The case of `NestedIsFlat` where the first comparison has conditions
      and a background: its pairs run first, then those of the rest. */
  lemma {:induction false} NestedIsFlatAt(countTable: seq<Row>, comparisons: seq<Value>, config: Value,
                                          present: set<string>, rscript: seq<string> -> bool)
    requires comparisons != [] && ConditionsOf(comparisons[0]).Ok? && ConditionsOf(comparisons[0]).value != []
    requires GetItem(comparisons[0], "background").Ok?
    ensures var e := Pairs(comparisons);
      var r := RunPairs(countTable, e.pairs, config, present, rscript);
      RunComparisons(countTable, comparisons, config, present, rscript)
      == if r.result.Err? || e.stop.Ok? then r else Trace(r.effects, Err(e.stop.error))
    decreases |comparisons|, 0
  {
    var cmp := comparisons[0];
    var conditions := ConditionsOf(cmp).value;
    var background := GetItem(cmp, "background").value;
    var ps := PairsWith(conditions, background);
    var rest := Pairs(comparisons[1..]);
    assert Pairs(comparisons) == Enumeration(ps + rest.pairs, rest.stop);
    var inner := RunConditions(countTable, cmp, conditions, config, present, rscript);
    ConditionsArePairs(countTable, cmp, conditions, background, config, present, rscript);
    RunPairsAppend(countTable, ps, rest.pairs, config, present, rscript);
    if inner.result.Ok? {
      NestedIsFlat(countTable, comparisons[1..], config, inner.result.value, rscript);
    }
  }

  /** The inner loop runs its conditions' pairs with the comparison's background. */
  lemma {:induction false} ConditionsArePairs(countTable: seq<Row>, cmp: Value, conditions: seq<Value>, background: Value,
                                              config: Value, present: set<string>, rscript: seq<string> -> bool)
    requires GetItem(cmp, "background") == Ok(background)
    ensures RunConditions(countTable, cmp, conditions, config, present, rscript)
            == RunPairs(countTable, PairsWith(conditions, background), config, present, rscript)
    decreases |conditions|
  {
    if conditions != [] {
      var ps := PairsWith(conditions, background);
      assert ps[0] == Pair(conditions[0], background);
      assert ps[1..] == PairsWith(conditions[1..], background);
      var n := NoreplicateComparison(countTable, conditions[0], background, config, present, rscript);
      if n.result.Ok? {
        ConditionsArePairs(countTable, cmp, conditions[1..], background, config, present + {n.result.value}, rscript);
      }
    }
  }

  /** Running `a + b` runs `a`, then `b` from the files `a` left, unless
      `a` failed. */
  lemma {:induction false} RunPairsAppend(countTable: seq<Row>, a: seq<Pair>, b: seq<Pair>, config: Value,
                                          present: set<string>, rscript: seq<string> -> bool)
    ensures var ra := RunPairs(countTable, a, config, present, rscript);
      RunPairs(countTable, a + b, config, present, rscript)
      == if ra.result.Err? then ra else Then(ra.effects, RunPairs(countTable, b, config, ra.result.value, rscript))
    decreases |a|
  {
    if a == [] {
      assert a + b == b;
      assert [] + RunPairs(countTable, b, config, present, rscript).effects
             == RunPairs(countTable, b, config, present, rscript).effects;
    } else {
      assert (a + b)[0] == a[0] && (a + b)[1..] == a[1..] + b;
      var n := NoreplicateComparison(countTable, a[0].condition, a[0].background, config, present, rscript);
      if n.result.Ok? {
        RunPairsAppend(countTable, a[1..], b, config, present + {n.result.value}, rscript);
        var ra' := RunPairs(countTable, a[1..], config, present + {n.result.value}, rscript);
        if ra'.result.Ok? {
          var rb := RunPairs(countTable, b, config, ra'.result.value, rscript);
          assert n.effects + (ra'.effects + rb.effects) == (n.effects + ra'.effects) + rb.effects;
        }
      }
    }
  }

  // ---------------------------------------------------------------------
  // _add_gene_descriptions

  /** `"{0}-annotated{1}".format(*os.path.splitext(in_file))`. */
  function AnnotatedName(inFile: string): (r: string)
    ensures |r| == |inFile| + 10
    ensures r[..|Splitext(inFile).0|] == Splitext(inFile).0
    ensures r[|r| - |Splitext(inFile).1|..] == Splitext(inFile).1
  {
    Splitext(inFile).0 + "-annotated" + Splitext(inFile).1
  }

  /** The annotated file keeps the input's extension, its root gains
      `-annotated`, and it is never the input file itself. */
  lemma AnnotatedNameShape(inFile: string)
    ensures Splitext(AnnotatedName(inFile)) == (Splitext(inFile).0 + "-annotated", Splitext(inFile).1)
    ensures AnnotatedName(inFile) != inFile
  {
    SplitextInsert(inFile, "-annotated");
    assert |AnnotatedName(inFile)| == |inFile| + 10;
  }

  /** The gene description lookup: given the `;`-separated gene ids of a
      row, a gene symbol and a description. */
  type Describe = seq<string> -> Result<(string, string)>

  /** One result row with its gene symbol and description appended; a row
      whose last field is `.` gets `.` for both without a lookup, and an
      empty row has no last field. */
  function AnnotateRow(parts: Row, describe: Describe): (r: Result<Row>)
    ensures parts == [] ==> r == Err(IndexError)
    ensures parts != [] && parts[|parts| - 1] == "." ==> r == Ok(parts + [".", "."])
    ensures parts != [] && parts[|parts| - 1] != "." ==>
              r == (match describe(Split(parts[|parts| - 1], ';'))
                    case Ok(d) => Ok(parts + [d.0, d.1])
                    case Err(e) => Err(e))
    ensures r.Ok? ==> |r.value| == |parts| + 2 && r.value[..|parts|] == parts
  {
    if parts == [] then Err(IndexError)
    else if parts[|parts| - 1] == "." then Ok(parts + [".", "."])
    else
      var d :- describe(Split(parts[|parts| - 1], ';'));
      Ok(parts + [d.0, d.1])
  }

  /** The annotated data rows, in order, up to the first row that raises:
      each written row is its input row annotated, and on an exception the
      row that raised is the one after the last written row. */
  function AnnotateRows(rows: seq<Row>, describe: Describe): (r: Rows)
    ensures |r.rows| <= |rows|
    ensures forall j :: 0 <= j < |r.rows| ==> AnnotateRow(rows[j], describe) == Ok(r.rows[j])
    ensures r.result.Ok? ==> |r.rows| == |rows|
    ensures r.result.Err? ==> |r.rows| < |rows| && AnnotateRow(rows[|r.rows|], describe) == Err(r.result.error)
    decreases |rows|
  {
    if rows == [] then Rows([], Ok(()))
    else
      match AnnotateRow(rows[0], describe)
      case Err(e) => Rows([], Err(e))
      case Ok(out) =>
        var rest := AnnotateRows(rows[1..], describe);
        assert forall j :: 1 <= j < |rows| ==> rows[1..][j - 1] == rows[j];
        Prepend([out], rest)
  }

  /** `_add_gene_descriptions` on the rows of `inFile`: nothing is done when
      the annotated file is present; otherwise it is created before the
      header is read (so an empty input leaves it empty and raises
      StopIteration), the header gains the two new column names, and the
      data rows are annotated until one raises. */
  function GeneDescriptions(inFile: string, input: seq<Row>, present: set<string>, describe: Describe): (t: Trace<Effect, string>)
    ensures t.result.Ok? ==> t.result.value == AnnotatedName(inFile)
    ensures AnnotatedName(inFile) in present <==> t.effects == []
    ensures AnnotatedName(inFile) in present ==> t.result.Ok?
    ensures t.effects != [] ==>
      && |t.effects| == 1 && t.effects[0].WriteRows? && t.effects[0].path == AnnotatedName(inFile)
      && (input == [] <==> t.effects[0].rows == [])
      && (input != [] ==> t.effects[0].rows[0] == input[0] + ["genesymbol", "description"])
      && (input != [] ==> t.effects[0].rows[1..] == AnnotateRows(input[1..], describe).rows)
      && (t.result.Ok? <==> input != [] && |t.effects[0].rows| == |input|)
  {
    var outFile := AnnotatedName(inFile);
    if outFile in present then Trace([], Ok(outFile))
    else if input == [] then Trace([WriteRows(outFile, [])], Err(StopIteration))
    else
      var body := AnnotateRows(input[1..], describe);
      Trace([WriteRows(outFile, [input[0] + ["genesymbol", "description"]] + body.rows)],
            if body.result.Ok? then Ok(outFile) else Err(body.result.error))
  }

  /** `_add_gene_descriptions` as the script runs it: open both files, copy
      the extended header, then annotate row by row. */
  method AddGeneDescriptions(inFile: string, input: seq<Row>, present: set<string>, describe: Describe)
    returns (effects: seq<Effect>, result: Result<string>)
    ensures Trace(effects, result) == GeneDescriptions(inFile, input, present, describe)
  {
    var outFile := AnnotatedName(inFile);
    if outFile in present { return [], Ok(outFile); }
    if input == [] { return [WriteRows(outFile, [])], Err(StopIteration); }
    var header := input[0] + ["genesymbol", "description"];
    var written, outcome := AnnotateLoop(input[1..], describe);
    effects := [WriteRows(outFile, [header] + written)];
    if outcome.Err? { return effects, Err(outcome.error); }
    return effects, Ok(outFile);
  }

  /** The row loop of `_add_gene_descriptions`. */
  method AnnotateLoop(data: seq<Row>, describe: Describe) returns (written: seq<Row>, result: Result<()>)
    ensures Rows(written, result) == AnnotateRows(data, describe)
  {
    written := [];
    var i := 0;
    while i < |data|
      invariant 0 <= i <= |data|
      invariant AnnotateRows(data, describe) == Prepend(written, AnnotateRows(data[i..], describe))
    {
      AnnotateAdvance(data, describe, i, written);
      var row := AnnotateOne(data[i], describe);
      if row.Err? { return written, Err(row.error); }
      written := written + [row.value];
      i := i + 1;
    }
    assert data[i..] == [];
    assert written + [] == written;
    return written, Ok(());
  }

  /** The loop body: `parts[-1]`, the lookup unless it is `.`, and the
      extended row. */
  method AnnotateOne(parts: Row, describe: Describe) returns (r: Result<Row>)
    ensures r == AnnotateRow(parts, describe)
  {
    if parts == [] { return Err(IndexError); }
    var symbol, descr := ".", ".";
    if parts[|parts| - 1] != "." {
      var d := describe(Split(parts[|parts| - 1], ';'));
      if d.Err? { return Err(d.error); }
      symbol, descr := d.value.0, d.value.1;
    }
    return Ok(parts + [symbol, descr]);
  }

  /** One turn of the annotation loop, with the rows written before it. */
  lemma AnnotateAdvance(data: seq<Row>, describe: Describe, i: nat, written: seq<Row>)
    requires i < |data|
    ensures var r := AnnotateRow(data[i], describe);
      Prepend(written, AnnotateRows(data[i..], describe))
      == if r.Err? then Rows(written, Err(r.error))
         else Prepend(written + [r.value], AnnotateRows(data[i + 1..], describe))
  {
    AnnotateUnfold(data, describe, i);
    var r := AnnotateRow(data[i], describe);
    if r.Err? {
      assert written + [] == written;
    } else {
      var rest := AnnotateRows(data[i + 1..], describe);
      assert written + ([r.value] + rest.rows) == (written + [r.value]) + rest.rows;
    }
  }

  lemma AnnotateUnfold(rows: seq<Row>, describe: Describe, i: nat)
    requires i < |rows|
    ensures var r := AnnotateRow(rows[i], describe);
      AnnotateRows(rows[i..], describe)
      == if r.Err? then Rows([], Err(r.error)) else Prepend([r.value], AnnotateRows(rows[i + 1..], describe))
  {
    assert rows[i..][0] == rows[i];
    assert rows[i..][1..] == rows[i + 1..];
  }
}
