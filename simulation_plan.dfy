/** `create_plan` of the detector-parallel runner as a whole: the plan name
    (`RunPipelineParallel`), its lookup with `find_file`, the `plan_args`
    overrides, the plan table read with astropy's `Table.read`, its
    `NUM_DETECTORS` count, and the batch loop that writes one plan file per
    detector. */
module SimulationPlan {
  import opened Wrappers
  import opened Strings
  import opened OrderedDict
  import IsfArgs
  import opened RunPipelineParallel

  // ---------------------------------------------------------------------
  // The plan table

  /** A column of the plan table as `create_plan` uses it: an integer
      column holding `value` in each row, or a column of any other type. */
  datatype Column = IntColumn(value: int) | OtherColumn

  /** An astropy table: how many rows it has, and its columns by name. */
  datatype PlanTable = PlanTable(rows: nat, columns: map<string, Column>)

  /** What `Table.read` gives for the plan file: a table, read as FITS or,
      when that raises, as ASCII; or the exception the ASCII read raised
      after the FITS read raised. */
  datatype PlanRead = Parsed(table: PlanTable) | Unparsed(asciiError: PyError)

  /** `except IOError` catches `OSError` and its subclasses. */
  predicate CaughtAsIOError(e: PyError) {
    e.IOError? || e.OSError? || e.FileExistsError?
  }

  /** The two reads of the plan table: an ASCII failure caught as IOError
      leaves no table and raises TypeError ("Unknown file format"); any
      other escapes. */
  function ReadPlanTable(read: PlanRead): (r: Result<PlanTable>)
    ensures r.Ok? <==> read.Parsed?
    ensures r.Ok? ==> r.value == read.table
    ensures r.Err? ==> r.error == if CaughtAsIOError(read.asciiError) then TypeError else read.asciiError
  {
    match read
    case Parsed(t) => Ok(t)
    case Unparsed(e) => if CaughtAsIOError(e) then Err(TypeError) else Err(e)
  }

  /** Column `k` exists and holds integers. */
  predicate IntAt(t: PlanTable, k: string) {
    k in t.columns && t.columns[k].IntColumn?
  }

  /** `table[key] = value` with a text value: a new key adds a text
      column; an integer column takes the value cast as numpy casts text
      to an integer, raising ValueError when `int()` rejects it; any other
      column takes the text. */
  function SetColumn(t: PlanTable, key: string, value: string): (r: Result<PlanTable>)
    ensures r.Err? <==> IntAt(t, key) && PyInt(value).Err?
    ensures r.Err? ==> r.error.ValueError?
    ensures r.Ok? ==> r.value.rows == t.rows && r.value.columns.Keys == t.columns.Keys + {key}
    ensures r.Ok? ==> forall k :: k != key && k in t.columns ==> r.value.columns[k] == t.columns[k]
    ensures r.Ok? ==> r.value.columns[key] == if IntAt(t, key) then IntColumn(PyInt(value).value) else OtherColumn
  {
    if key !in t.columns then Ok(PlanTable(t.rows, t.columns[key := OtherColumn]))
    else match t.columns[key]
      case OtherColumn => Ok(t)
      case IntColumn(_) =>
        match PyInt(value)
        case Ok(i) => Ok(PlanTable(t.rows, t.columns[key := IntColumn(i)]))
        case Err(e) => Err(e)
  }

  /** `for key in args_to_set: table[key] = args_to_set[key]`, in the
      dictionary's order. */
  function Override(t: PlanTable, d: Dict): Result<PlanTable>
    decreases |d|
  {
    if d == [] then Ok(t)
    else match SetColumn(t, d[0].0, d[0].1)
      case Err(e) => Err(e)
      case Ok(t') => Override(t', d[1..])
  }

  /** The loop of `create_plan` over `args_to_set`, updating the table. */
  method OverrideColumns(t: PlanTable, d: Dict) returns (r: Result<PlanTable>)
    ensures r == Override(t, d)
  {
    var table := t;
    var i := 0;
    while i < |d|
      invariant i <= |d|
      invariant Override(t, d) == Override(table, d[i..])
    {
      assert d[i..][0] == d[i] && d[i..][1..] == d[i + 1..];
      var step := SetColumn(table, d[i].0, d[i].1);
      if step.Err? {
        return Err(step.error);
      }
      table := step.value;
      i := i + 1;
    }
    assert d[i..] == [];
    return Ok(table);
  }

  /** An override keeps every column's type: a key that held integers
      still does, and a new key holds text. */
  lemma SetColumnKeepsTypes(t: PlanTable, key: string, value: string)
    requires SetColumn(t, key, value).Ok?
    ensures forall k :: IntAt(SetColumn(t, key, value).value, k) <==> IntAt(t, k)
  {
  }

  /** The overrides fail exactly when one of them gives an integer column
      a value `int()` rejects; the error is then a ValueError. */
  lemma {:induction false} OverrideFailsIff(t: PlanTable, d: Dict)
    ensures Override(t, d).Err? <==>
      exists j :: 0 <= j < |d| && IntAt(t, d[j].0) && PyInt(d[j].1).Err?
    ensures Override(t, d).Err? ==> Override(t, d).error.ValueError?
    decreases |d|
  {
    if d != [] {
      var s := SetColumn(t, d[0].0, d[0].1);
      if s.Ok? {
        OverrideFailsIff(s.value, d[1..]);
        SetColumnKeepsTypes(t, d[0].0, d[0].1);
        if exists j :: 0 <= j < |d| && IntAt(t, d[j].0) && PyInt(d[j].1).Err? {
          var j :| 0 <= j < |d| && IntAt(t, d[j].0) && PyInt(d[j].1).Err?;
          assert j != 0;
          assert d[1..][j - 1] == d[j];
        }
        if exists j :: 0 <= j < |d[1..]| && IntAt(s.value, d[1..][j].0) && PyInt(d[1..][j].1).Err? {
          var j :| 0 <= j < |d[1..]| && IntAt(s.value, d[1..][j].0) && PyInt(d[1..][j].1).Err?;
          assert d[1 + j] == d[1..][j];
        }
      }
    }
  }

  /** A dictionary's first key is not a key of the rest. */
  lemma FirstKeyOnce(d: Dict)
    requires Valid(d) && d != []
    ensures !HasKey(d[1..], d[0].0) && Valid(d[1..])
  {
    KeysAt(d[1..]);
    forall j | 0 <= j < |d[1..]|
      ensures Keys(d[1..])[j] != d[0].0
    {
      assert d[1..][j] == d[1 + j];
    }
  }

  /** After the overrides, a column no override names is unchanged, and a
      named one holds its override: cast to an integer if it held
      integers, as text otherwise. The row count stays. */
  lemma {:induction false} OverrideColumnAfter(t: PlanTable, d: Dict, k: string)
    requires Valid(d) && Override(t, d).Ok?
    ensures Override(t, d).value.rows == t.rows
    ensures k in Override(t, d).value.columns <==> k in t.columns || HasKey(d, k)
    ensures Get(d, k).None? && k in t.columns ==> Override(t, d).value.columns[k] == t.columns[k]
    ensures Get(d, k).Some? && IntAt(t, k) ==>
      PyInt(Get(d, k).value).Ok? && Override(t, d).value.columns[k] == IntColumn(PyInt(Get(d, k).value).value)
    ensures Get(d, k).Some? && !IntAt(t, k) ==> Override(t, d).value.columns[k] == OtherColumn
    decreases |d|
  {
    if d != [] {
      var s := SetColumn(t, d[0].0, d[0].1).value;
      assert Override(t, d) == Override(s, d[1..]);
      FirstKeyOnce(d);
      OverrideColumnAfter(s, d[1..], k);
      KeysAt(d);
      KeysAt(d[1..]);
      assert Keys(d) == [d[0].0] + Keys(d[1..]);
      if d[0].0 != k {
        assert Get(d, k) == Get(d[1..], k);
      } else {
        assert Get(d[1..], k).None?;
      }
    }
  }

  /** `simulation_plan_table['NUM_DETECTORS']` and the `math.ceil` of its
      quotient: KeyError without the column; TypeError when the column is
      not numeric, or when it has other than one row (`math.ceil` converts
      only a single value). */
  function DetectorCount(t: PlanTable): (r: Result<int>)
    ensures r.Ok? <==> IntAt(t, "NUM_DETECTORS") && t.rows == 1
    ensures r.Ok? ==> r.value == t.columns["NUM_DETECTORS"].value
    ensures "NUM_DETECTORS" !in t.columns ==> r == Err(KeyError("NUM_DETECTORS"))
    ensures "NUM_DETECTORS" in t.columns && r.Err? ==> r == Err(TypeError)
  {
    if "NUM_DETECTORS" !in t.columns then Err(KeyError("NUM_DETECTORS"))
    else match t.columns["NUM_DETECTORS"]
      case OtherColumn => Err(TypeError)
      case IntColumn(n) => if t.rows == 1 then Ok(n) else Err(TypeError)
  }

  // ---------------------------------------------------------------------
  // create_plan

  /** The `plan_args` pairs as `args_to_set`: values are taken as given. */
  function PlanArgsToSet(planArgs: seq<string>): Result<Dict> {
    IsfArgs.ApplyPairs([], planArgs, 0, IsfArgs.Calibration)
  }

  /** What `create_plan` settles before its batch loop, with the plan-name
      scan as written: the detector count and the updated `isf_args`.
      `located` is `find_file` on plan names (a name it lacks raises
      RuntimeError), `readTable` is `Table.read` on qualified plan files. */
  function PlanCount(isfArgs: seq<string>, isf: string, baseIsf: Option<seq<string>>, newPlan: string,
                     located: map<string, string>, planArgs: seq<string>, readTable: string -> PlanRead)
    : Result<(int, seq<string>)>
  {
    var named :- PlanNameAsWritten(isfArgs, isf, baseIsf, newPlan);
    if named.0 !in located then Err(RuntimeError(named.0))
    else
      var toSet :- PlanArgsToSet(planArgs);
      var table :- ReadPlanTable(readTable(located[named.0]));
      var updated :- Override(table, toSet);
      var count :- DetectorCount(updated);
      Ok((count, named.1))
  }

  /** What `create_plan` returns, and what it leaves behind: the batch
      list, the plan files it writes in order, and the updated `isf_args`. */
  datatype PlanOutcome = PlanOutcome(batches: seq<DetectorBatch>, planFiles: seq<string>, isfArgs: seq<string>)

  /** `create_plan` as written: the plan name, its lookup, the overrides,
      the table and its detector count, then the batch loop. */
  method CreatePlan(isfArgs: seq<string>, isf: string, baseIsf: Option<seq<string>>, newPlan: string,
                    located: map<string, string>, planArgs: seq<string>, readTable: string -> PlanRead,
                    workdirs: seq<string>)
    returns (r: Result<PlanOutcome>)
    ensures var c := PlanCount(isfArgs, isf, baseIsf, newPlan, located, planArgs, readTable);
      c.Err? ==> r == Err(c.error)
    ensures var c := PlanCount(isfArgs, isf, baseIsf, newPlan, located, planArgs, readTable);
      c.Ok? && |workdirs| == 0 ==> r == Err(CeilOverNoWorkers(c.value.0))
    ensures var c := PlanCount(isfArgs, isf, baseIsf, newPlan, located, planArgs, readTable);
      c.Ok? && |workdirs| > 0 ==>
        r == Ok(PlanOutcome(DetectorBatchesAsWritten(|workdirs|, DetectorsCounted(c.value.0)),
                            PlanFiles(workdirs, newPlan, DetectorsCounted(c.value.0)), c.value.1))
  {
    var scan := ScanIsfArgsForPlan(isfArgs, newPlan);
    if scan.Err? {
      return Err(scan.error);
    }
    var s := scan.value;
    if s.plan.None? {
      if baseIsf.None? {
        return Err(RuntimeError(isf));
      }
      var fromBase := TemplateScan(baseIsf.value, newPlan, s);
      if fromBase.Err? {
        return Err(fromBase.error);
      }
      s := fromBase.value;
    }
    if s.plan.None? {
      return Err(IOError("Cannot determine simulation_plan filename."));
    }
    assert PlanNameAsWritten(isfArgs, isf, baseIsf, newPlan) == Ok((s.plan.value, s.isfArgs));
    var planFilename := s.plan.value;
    if planFilename !in located {
      return Err(RuntimeError(planFilename));
    }
    var qualified := located[planFilename];
    var argsToSet := IsfArgs.ApplyIsfArgs([], planArgs, IsfArgs.Calibration);
    if argsToSet.Err? {
      return Err(argsToSet.error);
    }
    var table := ReadPlanTable(readTable(qualified));
    if table.Err? {
      return Err(table.error);
    }
    var updated := OverrideColumns(table.value, argsToSet.value);
    if updated.Err? {
      return Err(updated.error);
    }
    var count := DetectorCount(updated.value);
    if count.Err? {
      return Err(count.error);
    }
    var batches := CreatePlanBatches(workdirs, count.value, newPlan);
    if batches.Err? {
      return Err(batches.error);
    }
    return Ok(PlanOutcome(batches.value.0, batches.value.1, s.isfArgs));
  }

  /** The failures between the plan name and the batch loop, in source
      order: `find_file` of the plan name raises RuntimeError, a `plan_args`
      key without a value IndexError, and a table neither read accepts
      TypeError, or the ASCII read's own exception when that is not an
      IOError. */
  lemma PlanCountFailures(isfArgs: seq<string>, isf: string, baseIsf: Option<seq<string>>, newPlan: string,
                          located: map<string, string>, planArgs: seq<string>, readTable: string -> PlanRead)
    requires PlanNameAsWritten(isfArgs, isf, baseIsf, newPlan).Ok?
    ensures var name := PlanNameAsWritten(isfArgs, isf, baseIsf, newPlan).value.0;
      name !in located ==> PlanCount(isfArgs, isf, baseIsf, newPlan, located, planArgs, readTable) == Err(RuntimeError(name))
    ensures var name := PlanNameAsWritten(isfArgs, isf, baseIsf, newPlan).value.0;
      name in located && |planArgs| % 2 == 1 ==>
        PlanCount(isfArgs, isf, baseIsf, newPlan, located, planArgs, readTable) == Err(IndexError)
    ensures var name := PlanNameAsWritten(isfArgs, isf, baseIsf, newPlan).value.0;
      name in located && |planArgs| % 2 == 0 && readTable(located[name]).Unparsed? ==>
        var e := readTable(located[name]).asciiError;
        PlanCount(isfArgs, isf, baseIsf, newPlan, located, planArgs, readTable)
          == Err(if CaughtAsIOError(e) then TypeError else e)
  {
    IsfArgs.ApplyPairsOkIff([], planArgs, 0, IsfArgs.Calibration);
    IsfArgs.ApplyPairsError([], planArgs, 0, IsfArgs.Calibration);
  }

  /** The detector count comes from `plan_args` when a pair names
      `NUM_DETECTORS` (the last such pair, read with `int()`), and from the
      table otherwise; either way the table read has an integer
      `NUM_DETECTORS` column and one row. The returned `isf_args` are those
      of the plan-name step. */
  lemma DetectorCountSource(isfArgs: seq<string>, isf: string, baseIsf: Option<seq<string>>, newPlan: string,
                            located: map<string, string>, planArgs: seq<string>, readTable: string -> PlanRead)
    requires PlanCount(isfArgs, isf, baseIsf, newPlan, located, planArgs, readTable).Ok?
    ensures var named := PlanNameAsWritten(isfArgs, isf, baseIsf, newPlan);
      named.Ok? && named.value.0 in located && readTable(located[named.value.0]).Parsed? &&
      var t := readTable(located[named.value.0]).table;
      var c := PlanCount(isfArgs, isf, baseIsf, newPlan, located, planArgs, readTable).value;
      IntAt(t, "NUM_DETECTORS") && t.rows == 1 && c.1 == named.value.1 &&
      var v := IsfArgs.LastPairValue(planArgs, 0, "NUM_DETECTORS", IsfArgs.Calibration);
      (v.Some? ==> PyInt(v.value) == Ok(c.0)) &&
      (v.None? ==> t.columns["NUM_DETECTORS"] == IntColumn(c.0))
  {
    var named := PlanNameAsWritten(isfArgs, isf, baseIsf, newPlan).value;
    var toSet := PlanArgsToSet(planArgs).value;
    var t := ReadPlanTable(readTable(located[named.0])).value;
    var updated := Override(t, toSet);
    IsfArgs.ApplyPairsKeys([], planArgs, 0, IsfArgs.Calibration);
    IsfArgs.ApplyPairsLookup([], planArgs, 0, IsfArgs.Calibration, "NUM_DETECTORS");
    assert Get([], "NUM_DETECTORS") == None;
    OverrideColumnAfter(t, toSet, "NUM_DETECTORS");
    var v := IsfArgs.LastPairValue(planArgs, 0, "NUM_DETECTORS", IsfArgs.Calibration);
    assert Get(toSet, "NUM_DETECTORS") == v;
    if v.Some? {
      assert IsfArgs.PairValue(IsfArgs.Calibration, v.value) == v.value;
      SetColumnTypesAfter(t, toSet, "NUM_DETECTORS");
    }
  }

  /** A column holds integers after the overrides only if it did before. */
  lemma {:induction false} SetColumnTypesAfter(t: PlanTable, d: Dict, k: string)
    requires Override(t, d).Ok?
    ensures IntAt(Override(t, d).value, k) <==> IntAt(t, k)
    decreases |d|
  {
    if d != [] {
      var s := SetColumn(t, d[0].0, d[0].1).value;
      SetColumnKeepsTypes(t, d[0].0, d[0].1);
      SetColumnTypesAfter(s, d[1..], k);
    }
  }
}
