/** The helpers of the detector-parallel pipeline runner
    (`run_pipeline_parallel.py`): batch-tagged filenames, locating the
    simulation plan, and splitting the detectors into batches of workers. */
module RunPipelineParallel {
  import opened Wrappers
  import opened Strings
  import opened Paths
  import BatchPlanner

  // ---------------------------------------------------------------------
  // isFilename and convertToBatchFilename

  /** `isFilename(v)` is truthy (True rather than None) exactly when
      `dirname(v)` is non-empty, that is when `v` contains a `/`. */
  function IsFilename(v: string): (r: bool)
    ensures r <==> '/' in v
  {
    DirnameNonEmptyIff(v);
    |Dirname(v)| > 0
  }

  /** The tag `_batch<b>` that marks a file as belonging to batch `b`. */
  function BatchTag(b: nat): string {
    "_batch" + NatToString(b)
  }

  /** `convertToBatchFilename(filename, batch)`: a name that already
      contains the tag is returned as it is; otherwise the tag goes before
      the text after the last `.`. */
  function ConvertToBatchFilename(filename: string, b: nat): (r: string)
    ensures Contains(filename, BatchTag(b)) ==> r == filename
  {
    if Contains(filename, BatchTag(b)) then filename else TagBeforeExt(filename, BatchTag(b))
  }

  /** Everything before the last `.`, the tag, a `.`, and the text after
      the last `.`. */
  function TagBeforeExt(filename: string, tag: string): string {
    var parts := SplitOn(filename, ".");
    var root := Join(parts[..|parts| - 1], ".");
    var ext := parts[|parts| - 1];
    root + tag + "." + ext
  }

  /** The converted name always carries the tag, so converting twice is
      the same as converting once. */
  lemma ConvertIdempotent(filename: string, b: nat)
    ensures Contains(ConvertToBatchFilename(filename, b), BatchTag(b))
    ensures ConvertToBatchFilename(ConvertToBatchFilename(filename, b), b) == ConvertToBatchFilename(filename, b)
  {
    if !Contains(filename, BatchTag(b)) {
      TagIsContained(filename, BatchTag(b));
    }
  }

  lemma TagIsContained(filename: string, tag: string)
    ensures Contains(TagBeforeExt(filename, tag), tag)
  {
    var parts := SplitOn(filename, ".");
    var root := Join(parts[..|parts| - 1], ".");
    var ext := parts[|parts| - 1];
    assert root + tag + "." + ext == root + tag + ("." + ext);
    ContainsInfix(root, tag, "." + ext);
  }

  /** A name with a `.` is cut at its last `.`: `root.ext` becomes
      `root_batch<b>.ext`, where `ext` holds no `.`. */
  lemma ConvertSplitsAtLastDot(root: string, ext: string, b: nat)
    requires '.' !in ext
    requires !Contains(root + "." + ext, BatchTag(b))
    ensures ConvertToBatchFilename(root + "." + ext, b) == root + BatchTag(b) + "." + ext
  {
    TagAtLastDot(root, ext, BatchTag(b));
  }

  lemma TagAtLastDot(root: string, ext: string, tag: string)
    requires '.' !in ext
    ensures TagBeforeExt(root + "." + ext, tag) == root + tag + "." + ext
  {
    var parts := SplitOn(root + "." + ext, ".");
    SplitLastChar(root, '.', ext);
    assert root + ['.'] + ext == root + "." + ext;
    JoinSplit(root, ".");
    assert parts[..|parts| - 1] == SplitOn(root, ".");
  }

  /** A name without a `.` becomes `_batch<b>.` followed by the name. */
  lemma ConvertWithoutDot(filename: string, b: nat)
    requires '.' !in filename
    requires !Contains(filename, BatchTag(b))
    ensures ConvertToBatchFilename(filename, b) == BatchTag(b) + "." + filename
  {
    TagWithoutDot(filename, BatchTag(b));
  }

  lemma TagWithoutDot(filename: string, tag: string)
    requires '.' !in filename
    ensures TagBeforeExt(filename, tag) == tag + "." + filename
  {
    var parts := SplitOn(filename, ".");
    assert parts == [filename] by {
      CharAbsent(filename, '.');
    }
    assert Join(parts[..|parts| - 1], ".") == "" by {
      assert parts[..|parts| - 1] == [];
    }
  }

  /** The tag test is textual: a name tagged for batch 12 already counts as
      tagged for batch 1. */
  lemma ConvertTagIsTextual()
    ensures ConvertToBatchFilename("plan_batch12.fits", 1) == "plan_batch12.fits"
  {
    assert NatToString(1) == "1";
    assert BatchTag(1) == "_batch1";
    ContainsInfix("plan", "_batch1", "2.fits");
    assert "plan" + "_batch1" + "2.fits" == "plan_batch12.fits";
  }

  // ---------------------------------------------------------------------
  // create_plan: where the simulation plan name comes from

  /** The plan name found so far and the (possibly updated) `isf_args`. */
  datatype PlanScan = PlanScan(plan: Option<string>, isfArgs: seq<string>)

  /** The first position at or after `i` holding `x`, or `|a|` if none. */
  function FirstIndexFrom(a: seq<string>, x: string, i: nat): (j: nat)
    requires i <= |a|
    decreases |a| - i
    ensures i <= j <= |a|
    ensures j < |a| ==> a[j] == x
    ensures forall k :: i <= k < j ==> a[k] != x
  {
    if i == |a| then |a|
    else if a[i] == x then i
    else FirstIndexFrom(a, x, i + 1)
  }

  /** The key of the `p`-th complete (key, value) pair of `a`. */
  function Key(a: seq<string>, p: nat): string
    requires p < |a| / 2
  {
    a[2 * p]
  }

  /** The first complete pair at or after pair `p` whose key is `x`, or
      `|a| / 2` if none. */
  function FirstKeyFrom(a: seq<string>, x: string, p: nat): (q: nat)
    requires p <= |a| / 2
    decreases |a| / 2 - p
    ensures p <= q <= |a| / 2
    ensures q < |a| / 2 ==> Key(a, q) == x
    ensures forall k :: p <= k < q ==> Key(a, k) != x
  {
    if p == |a| / 2 then p
    else if Key(a, p) == x then p
    else FirstKeyFrom(a, x, p + 1)
  }

  /** The `isf_args` scan as written: it steps one element at a time, so it
      stops at the first element equal to `simulation_plan` whether that is
      a key or a value, takes the element after it as the plan name and
      overwrites that element with the new name; IndexError when that
      element is the last one. */
  function ScanAsWritten(a: seq<string>, newPlan: string): (r: Result<PlanScan>)
    ensures r.Ok? && r.value.plan.None? ==> r.value.isfArgs == a && "simulation_plan" !in a
    ensures r.Err? <==> "simulation_plan" in a && FirstIndexFrom(a, "simulation_plan", 0) == |a| - 1
  {
    var j := FirstIndexFrom(a, "simulation_plan", 0);
    if j == |a| then Ok(PlanScan(None, a))
    else if j + 1 < |a| then Ok(PlanScan(Some(a[j + 1]), a[j + 1 := newPlan]))
    else Err(IndexError)
  }

  /** `create_plan`'s loop over `isf_args`, updating the list in place. */
  method ScanIsfArgsForPlan(isfArgs: seq<string>, newPlan: string) returns (r: Result<PlanScan>)
    ensures r == ScanAsWritten(isfArgs, newPlan)
  {
    var args := isfArgs;
    var argI := 0;
    while argI < |args|
      invariant argI <= |args| && args == isfArgs
      invariant FirstIndexFrom(args, "simulation_plan", argI) == FirstIndexFrom(args, "simulation_plan", 0)
    {
      if args[argI] == "simulation_plan" {
        if argI + 1 >= |args| {
          return Err(IndexError);
        }
        var planFilename := args[argI + 1];
        args := args[argI + 1 := newPlan];
        return Ok(PlanScan(Some(planFilename), args));
      }
      argI := argI + 1;
    }
    return Ok(PlanScan(None, args));
  }

  /** A value equal to `simulation_plan` is taken for the key: the plan name
      becomes `simulation_plan` and the key of the next pair is overwritten. */
  lemma ScanMistakesValueForKey()
    ensures ScanAsWritten(["x", "simulation_plan", "simulation_plan", "p.fits"], "new.fits")
      == Ok(PlanScan(Some("simulation_plan"), ["x", "simulation_plan", "new.fits", "p.fits"]))
  {
    var a := ["x", "simulation_plan", "simulation_plan", "p.fits"];
    assert a[0] != "simulation_plan" && a[1] == "simulation_plan";
    assert FirstIndexFrom(a, "simulation_plan", 0) == 1;
    assert a[2 := "new.fits"] == ["x", "simulation_plan", "new.fits", "p.fits"];
  }

  /** A trailing value equal to `simulation_plan` raises IndexError. */
  lemma ScanTrailingValueFails()
    ensures ScanAsWritten(["x", "simulation_plan"], "new.fits") == Err(IndexError)
  {
    var a := ["x", "simulation_plan"];
    assert a[0] != "simulation_plan" && a[1] == "simulation_plan";
    assert FirstIndexFrom(a, "simulation_plan", 0) == 1;
  }

  /** The scan as intended: only keys (even positions of complete pairs)
      are compared, so the plan name is the value of the first pair whose
      key is `simulation_plan`, and only that value is replaced; keys are
      never touched. */
  function ScanPairs(a: seq<string>, newPlan: string): (r: PlanScan)
    ensures |r.isfArgs| == |a|
    ensures forall p :: 0 <= p < |a| / 2 ==> Key(r.isfArgs, p) == Key(a, p)
    ensures r.plan.None? <==> forall p :: 0 <= p < |a| / 2 ==> Key(a, p) != "simulation_plan"
    ensures r.plan.None? ==> r.isfArgs == a
    ensures r.plan.Some? ==>
      var q := FirstKeyFrom(a, "simulation_plan", 0);
      r.plan.value == a[2 * q + 1] && r.isfArgs == a[2 * q + 1 := newPlan]
  {
    var q := FirstKeyFrom(a, "simulation_plan", 0);
    if q < |a| / 2 then PlanScan(Some(a[2 * q + 1]), a[2 * q + 1 := newPlan]) else PlanScan(None, a)
  }

  /** On the same input the intended scan finds `p.fits` and leaves the
      keys alone; a trailing lone element is not a pair and is ignored. */
  lemma ScanPairsExamples()
    ensures ScanPairs(["x", "simulation_plan", "simulation_plan", "p.fits"], "new.fits")
      == PlanScan(Some("p.fits"), ["x", "simulation_plan", "simulation_plan", "new.fits"])
    ensures ScanPairs(["x", "simulation_plan", "simulation_plan"], "new.fits")
      == PlanScan(None, ["x", "simulation_plan", "simulation_plan"])
  {
    var a := ["x", "simulation_plan", "simulation_plan", "p.fits"];
    assert Key(a, 0) != "simulation_plan" && Key(a, 1) == "simulation_plan";
    assert FirstKeyFrom(a, "simulation_plan", 0) == 1;
    var b := ["x", "simulation_plan", "simulation_plan"];
    assert Key(b, 0) != "simulation_plan";
    assert FirstKeyFrom(b, "simulation_plan", 0) == 1;
  }

  /** A base-ISF line as `create_plan` reads it: stripped and split on
      `=`; the key and the value are the first two parts, each stripped. */
  function PlanLineParts(line: string): (r: seq<string>)
    ensures |r| >= 1
  {
    SplitOn(Strip(line), "=")
  }

  /** The line's key is `simulation_plan`. */
  predicate IsPlanLine(line: string) {
    Strip(PlanLineParts(line)[0]) == "simulation_plan"
  }

  /** The line has a value part. */
  predicate HasValue(line: string) {
    |PlanLineParts(line)| >= 2
  }

  function LineValue(line: string): string
    requires HasValue(line)
  {
    Strip(PlanLineParts(line)[1])
  }

  /** The fallback over the base ISF: every line whose key is
      `simulation_plan` sets the plan name, so the last one wins, and
      appends a `simulation_plan` pair to `isf_args`; such a line without
      `=` raises IndexError. */
  function TemplateScan(lines: seq<string>, newPlan: string, acc: PlanScan): (r: Result<PlanScan>)
    decreases |lines|
    ensures r.Err? ==> r.error == IndexError
  {
    if lines == [] then Ok(acc)
    else if IsPlanLine(lines[0]) then
      if !HasValue(lines[0]) then Err(IndexError)
      else TemplateScan(lines[1..], newPlan, PlanScan(Some(LineValue(lines[0])), acc.isfArgs + ["simulation_plan", newPlan]))
    else TemplateScan(lines[1..], newPlan, acc)
  }

  /** The plan name of the last base-ISF line with key `simulation_plan`. */
  function LastPlanLine(lines: seq<string>): Option<string> {
    if lines == [] then None
    else match LastPlanLine(lines[1..])
      case Some(p) => Some(p)
      case None =>
        if IsPlanLine(lines[0]) && HasValue(lines[0]) then Some(LineValue(lines[0])) else None
  }

  /** The fallback keeps the last plan line; when no line names a plan
      nothing changes. */
  lemma {:induction false} TemplateScanLastWins(lines: seq<string>, newPlan: string, acc: PlanScan)
    requires TemplateScan(lines, newPlan, acc).Ok?
    ensures TemplateScan(lines, newPlan, acc).value.plan
      == if LastPlanLine(lines).Some? then LastPlanLine(lines) else acc.plan
    ensures LastPlanLine(lines).None? ==> TemplateScan(lines, newPlan, acc) == Ok(acc)
    decreases |lines|
  {
    if lines != [] {
      if IsPlanLine(lines[0]) {
        var acc' := PlanScan(Some(LineValue(lines[0])), acc.isfArgs + ["simulation_plan", newPlan]);
        TemplateScanLastWins(lines[1..], newPlan, acc');
      } else {
        TemplateScanLastWins(lines[1..], newPlan, acc);
      }
    }
  }

  /** Every plan line appends one pair to what was there, so `isf_args`
      ends with a `simulation_plan` pair whenever a plan was found. */
  lemma {:induction false} TemplateScanAppends(lines: seq<string>, newPlan: string, acc: PlanScan)
    requires TemplateScan(lines, newPlan, acc).Ok?
    ensures LastPlanLine(lines).Some? ==> EndsWithPlanPair(TemplateScan(lines, newPlan, acc).value.isfArgs, newPlan)
    decreases |lines|
  {
    if lines != [] {
      if IsPlanLine(lines[0]) {
        var acc' := PlanScan(Some(LineValue(lines[0])), acc.isfArgs + ["simulation_plan", newPlan]);
        var t := TemplateScan(lines[1..], newPlan, acc');
        assert TemplateScan(lines, newPlan, acc) == t;
        TemplateScanAppends(lines[1..], newPlan, acc');
        assert EndsWithPlanPair(t.value.isfArgs, newPlan) by {
          if LastPlanLine(lines[1..]).None? {
            TemplateScanLastWins(lines[1..], newPlan, acc');
          }
        }
      } else {
        assert TemplateScan(lines, newPlan, acc) == TemplateScan(lines[1..], newPlan, acc);
        TemplateScanAppends(lines[1..], newPlan, acc);
      }
    }
  }

  predicate EndsWithPlanPair(a: seq<string>, newPlan: string) {
    |a| >= 2 && a[|a| - 2] == "simulation_plan" && a[|a| - 1] == newPlan
  }

  /** Where `create_plan` gets the plan name, with the intended pair scan:
      from `isf_args` first, else from the lines of the base ISF `isf`,
      which `find_file` looks up only then (`baseIsf`, None when it is not
      found: RuntimeError); IOError when neither names a plan. The
      returned `isf_args` refer to the new plan. */
  function PlanName(isfArgs: seq<string>, isf: string, baseIsf: Option<seq<string>>, newPlan: string)
    : (r: Result<(string, seq<string>)>)
    ensures ScanPairs(isfArgs, newPlan).plan.Some? ==> r.Ok?
    ensures ScanPairs(isfArgs, newPlan).plan.None? && baseIsf.None? ==> r == Err(RuntimeError(isf))
  {
    var s := ScanPairs(isfArgs, newPlan);
    if s.plan.Some? then Ok((s.plan.value, s.isfArgs))
    else if baseIsf.None? then Err(RuntimeError(isf))
    else
      var t := TemplateScan(baseIsf.value, newPlan, s);
      if t.Err? then Err(t.error)
      else if t.value.plan.None? then Err(IOError("Cannot determine simulation_plan filename."))
      else Ok((t.value.plan.value, t.value.isfArgs))
  }

  /** `a` holds `simulation_plan` immediately followed by `newPlan`. */
  predicate HasPlanPair(a: seq<string>, newPlan: string) {
    exists j: nat :: j < |a| && PlanPairAt(a, newPlan, j)
  }

  /** Positions `j` and `j + 1` of `a` hold that pair. */
  predicate PlanPairAt(a: seq<string>, newPlan: string, j: nat) {
    j + 1 < |a| && a[j] == "simulation_plan" && a[j + 1] == newPlan
  }

  /** Once a plan name is settled, `isf_args` holds a `simulation_plan`
      pair whose value is the new plan file. */
  lemma PlanNameRegistersNewPlan(isfArgs: seq<string>, isf: string, baseIsf: Option<seq<string>>, newPlan: string)
    requires PlanName(isfArgs, isf, baseIsf, newPlan).Ok?
    ensures HasPlanPair(PlanName(isfArgs, isf, baseIsf, newPlan).value.1, newPlan)
  {
    var s := ScanPairs(isfArgs, newPlan);
    if s.plan.None? {
      var lines := baseIsf.value;
      PlanNameFailsIff(isfArgs, isf, baseIsf, newPlan);
      assert LastPlanLine(lines).Some?;
      assert PlanName(isfArgs, isf, baseIsf, newPlan).value.1 == TemplateScan(lines, newPlan, s).value.isfArgs;
      TemplatePlanRegisters(lines, newPlan, s);
    } else {
      assert PlanName(isfArgs, isf, baseIsf, newPlan).value.1 == s.isfArgs;
      PairPlanRegisters(isfArgs, newPlan);
    }
  }

  lemma TemplatePlanRegisters(lines: seq<string>, newPlan: string, s: PlanScan)
    requires LastPlanLine(lines).Some? && TemplateScan(lines, newPlan, s).Ok?
    ensures HasPlanPair(TemplateScan(lines, newPlan, s).value.isfArgs, newPlan)
  {
    var r := TemplateScan(lines, newPlan, s).value.isfArgs;
    TemplateScanAppends(lines, newPlan, s);
    EndsWithHasPair(r, newPlan);
  }

  lemma EndsWithHasPair(a: seq<string>, newPlan: string)
    requires EndsWithPlanPair(a, newPlan)
    ensures HasPlanPair(a, newPlan)
  {
    assert PlanPairAt(a, newPlan, |a| - 2);
  }

  lemma PairPlanRegisters(isfArgs: seq<string>, newPlan: string)
    requires ScanPairs(isfArgs, newPlan).plan.Some?
    ensures HasPlanPair(ScanPairs(isfArgs, newPlan).isfArgs, newPlan)
  {
    var r := ScanPairs(isfArgs, newPlan).isfArgs;
    var q := FirstKeyFrom(isfArgs, "simulation_plan", 0);
    assert r[2 * q] == "simulation_plan" && r[2 * q + 1] == newPlan by {
      assert Key(r, q) == "simulation_plan";
    }
    assert PlanPairAt(r, newPlan, 2 * q);
  }

  /** IOError exactly when no pair names a plan, the base ISF is found and
      none of its lines names one (and no plan line lacks its `=`). */
  lemma PlanNameFailsIff(isfArgs: seq<string>, isf: string, baseIsf: Option<seq<string>>, newPlan: string)
    ensures (PlanName(isfArgs, isf, baseIsf, newPlan) == Err(IOError("Cannot determine simulation_plan filename.")))
            <==> (ScanPairs(isfArgs, newPlan).plan.None? && baseIsf.Some? && LastPlanLine(baseIsf.value).None?
                  && TemplateScan(baseIsf.value, newPlan, ScanPairs(isfArgs, newPlan)).Ok?)
  {
    var s := ScanPairs(isfArgs, newPlan);
    if s.plan.None? && baseIsf.Some? {
      var t := TemplateScan(baseIsf.value, newPlan, s);
      if t.Ok? {
        assert t.value.plan == (if LastPlanLine(baseIsf.value).Some? then LastPlanLine(baseIsf.value) else None) by {
          TemplateScanLastWins(baseIsf.value, newPlan, s);
        }
      }
    }
  }

  /** Where `create_plan` gets the plan name as written: the element-wise
      scan of `isf_args` first, which can raise IndexError, then the base
      ISF, whose lookup can raise RuntimeError, and its lines; IOError when
      neither names a plan. */
  function PlanNameAsWritten(isfArgs: seq<string>, isf: string, baseIsf: Option<seq<string>>, newPlan: string)
    : (r: Result<(string, seq<string>)>)
    ensures r.Err? ==> r.error == IndexError || r.error == RuntimeError(isf)
                       || r.error == IOError("Cannot determine simulation_plan filename.")
    ensures ScanAsWritten(isfArgs, newPlan).Ok? && ScanAsWritten(isfArgs, newPlan).value.plan.None? && baseIsf.None?
            ==> r == Err(RuntimeError(isf))
  {
    var s :- ScanAsWritten(isfArgs, newPlan);
    if s.plan.Some? then Ok((s.plan.value, s.isfArgs))
    else if baseIsf.None? then Err(RuntimeError(isf))
    else
      var t := TemplateScan(baseIsf.value, newPlan, s);
      if t.Err? then Err(t.error)
      else if t.value.plan.None? then Err(IOError("Cannot determine simulation_plan filename."))
      else Ok((t.value.plan.value, t.value.isfArgs))
  }

  /** As written, IOError exactly when no element of `isf_args` (key or
      value) is `simulation_plan`, the base ISF is found and no line of it
      names a plan. */
  lemma PlanNameAsWrittenFailsIff(isfArgs: seq<string>, isf: string, baseIsf: Option<seq<string>>, newPlan: string)
    ensures (PlanNameAsWritten(isfArgs, isf, baseIsf, newPlan) == Err(IOError("Cannot determine simulation_plan filename.")))
            <==> ("simulation_plan" !in isfArgs && baseIsf.Some? && LastPlanLine(baseIsf.value).None?
                  && TemplateScan(baseIsf.value, newPlan, PlanScan(None, isfArgs)).Ok?)
  {
    var j := FirstIndexFrom(isfArgs, "simulation_plan", 0);
    if "simulation_plan" !in isfArgs {
      assert j == |isfArgs|;
      var s := PlanScan(None, isfArgs);
      assert ScanAsWritten(isfArgs, newPlan) == Ok(s);
      if baseIsf.Some? {
        var t := TemplateScan(baseIsf.value, newPlan, s);
        if t.Ok? {
          assert t.value.plan == (if LastPlanLine(baseIsf.value).Some? then LastPlanLine(baseIsf.value) else None) by {
            TemplateScanLastWins(baseIsf.value, newPlan, s);
          }
        }
      }
    } else {
      assert j < |isfArgs| by {
        var k :| 0 <= k < |isfArgs| && isfArgs[k] == "simulation_plan";
      }
    }
  }

  /** As written, a `simulation_plan` element that comes last, with none
      before it, makes `create_plan` raise IndexError. */
  lemma PlanNameAsWrittenTrailing(isfArgs: seq<string>, isf: string, baseIsf: Option<seq<string>>, newPlan: string)
    requires |isfArgs| > 0 && isfArgs[|isfArgs| - 1] == "simulation_plan"
    requires "simulation_plan" !in isfArgs[..|isfArgs| - 1]
    ensures PlanNameAsWritten(isfArgs, isf, baseIsf, newPlan) == Err(IndexError)
  {
    var n := |isfArgs|;
    var j := FirstIndexFrom(isfArgs, "simulation_plan", 0);
    assert j == n - 1;
  }

  /** As written too, a settled plan name leaves a `simulation_plan`
      element followed by the new plan file in `isf_args`. */
  lemma PlanNameAsWrittenRegisters(isfArgs: seq<string>, isf: string, baseIsf: Option<seq<string>>, newPlan: string)
    requires PlanNameAsWritten(isfArgs, isf, baseIsf, newPlan).Ok?
    ensures HasPlanPair(PlanNameAsWritten(isfArgs, isf, baseIsf, newPlan).value.1, newPlan)
  {
    var s := ScanAsWritten(isfArgs, newPlan).value;
    if s.plan.None? {
      var lines := baseIsf.value;
      var t := TemplateScan(lines, newPlan, s);
      assert t.Ok? && t.value.plan.Some?;
      assert LastPlanLine(lines).Some? by {
        TemplateScanLastWins(lines, newPlan, s);
      }
      TemplatePlanRegisters(lines, newPlan, s);
    } else {
      var j := FirstIndexFrom(isfArgs, "simulation_plan", 0);
      assert PlanPairAt(s.isfArgs, newPlan, j);
    }
  }

  // ---------------------------------------------------------------------
  // create_plan: the detector batch loop

  /** `Batch(batch_no, nThreads)` as `create_plan` returns it. */
  datatype DetectorBatch = DetectorBatch(batchNo: nat, nThreads: int)

  /** The plan file written for detector `d`: it goes to the workdir of
      worker `d % W`, and its name carries the tag of batch `d / W`. */
  function PlanFile(workdirs: seq<string>, newPlan: string, d: nat): string
    requires |workdirs| > 0
  {
    BatchPlanFile(workdirs[d % |workdirs|], newPlan, d / |workdirs|)
  }

  /** The plan file of batch `b` in workdir `dir`. */
  function BatchPlanFile(dir: string, newPlan: string, b: nat): string {
    PathJoin(dir, ReplaceAll(newPlan, ".fits", "_batch" + NatToString(b) + ".fits"))
  }

  /** One plan file per detector, in detector order. */
  function PlanFiles(workdirs: seq<string>, newPlan: string, n: nat): (r: seq<string>)
    requires |workdirs| > 0
    ensures |r| == n
  {
    seq(n, d requires 0 <= d => PlanFile(workdirs, newPlan, d))
  }

  /** The thread count the loop records for batch `b`: it starts at `W - 1`
      and becomes `t` only at the slot `t` whose detector number equals the
      detector count, so a batch that is full keeps `W - 1`. */
  function RecordedThreads(w: nat, n: nat, b: nat): int
    requires w > 0
  {
    if n - w * b < w then n - w * b else w - 1
  }

  /** The batch list `create_plan` returns, as written. */
  function DetectorBatchesAsWritten(w: nat, n: nat): (r: seq<DetectorBatch>)
    requires w > 0
    ensures |r| == BatchPlanner.CeilDiv(n, w)
    ensures forall b :: 0 <= b < |r| ==> r[b].batchNo == b
  {
    seq(BatchPlanner.CeilDiv(n, w), b requires 0 <= b => DetectorBatch(b, RecordedThreads(w, n, b)))
  }

  /** The batch list as intended: each batch records how many detectors it
      holds, which is the worker count of the simulation-batch planner. */
  function DetectorBatches(w: nat, n: nat): (r: seq<DetectorBatch>)
    requires w > 0
    ensures |r| == |BatchPlanner.Batches(w, n)|
    ensures forall b :: 0 <= b < |r| ==>
      r[b].batchNo == b && r[b].nThreads == BatchPlanner.Batches(w, n)[b].nThreads
  {
    seq(BatchPlanner.CeilDiv(n, w), b requires 0 <= b => DetectorBatch(b, BatchPlanner.PlannedBatch(w, n, b).nThreads))
  }

  /** Detector `W*b + t` of worker `t` carries batch tag `b`. */
  lemma PlanFileOfSlot(workdirs: seq<string>, newPlan: string, b: nat, t: nat)
    requires t < |workdirs|
    ensures PlanFile(workdirs, newPlan, |workdirs| * b + t) == BatchPlanFile(workdirs[t], newPlan, b)
  {
    var w := |workdirs|;
    var d := w * b + t;
    assert d / w == b && d % w == t by {
      BatchPlanner.DivUnique(d, w, b);
    }
  }

  lemma PlanFilesPrefixSnoc(workdirs: seq<string>, newPlan: string, n: nat, d: nat)
    requires |workdirs| > 0 && d < n
    ensures PlanFiles(workdirs, newPlan, n)[..d + 1]
      == PlanFiles(workdirs, newPlan, n)[..d] + [PlanFile(workdirs, newPlan, d)]
  {
  }

  function MinNat(a: nat, b: nat): nat { if a <= b then a else b }

  /** One pass of `create_plan`'s inner loop, over the workers of batch
      `b`: it writes the plan files of the batch's detectors after
      `written` and returns the recorded thread count. */
  method PlanBatch(workdirs: seq<string>, n: nat, newPlan: string, b: nat, written: seq<string>)
    returns (maxThreadNo: int, written': seq<string>)
    requires |workdirs| > 0 && |workdirs| * b < n
    requires written == PlanFiles(workdirs, newPlan, n)[..|workdirs| * b]
    ensures maxThreadNo == RecordedThreads(|workdirs|, n, b)
    ensures written' == PlanFiles(workdirs, newPlan, n)[..MinNat(|workdirs| * b + |workdirs|, n)]
  {
    var w := |workdirs|;
    ghost var plans := PlanFiles(workdirs, newPlan, n);
    var base := w * b;
    written' := written;
    maxThreadNo := w - 1;
    var threadNo := 0;
    while threadNo < w
      invariant threadNo <= w
      invariant maxThreadNo == if n - base < threadNo then n - base else w - 1
      invariant written' == plans[..MinNat(base + threadNo, n)]
    {
      var detectorNo := base + threadNo;
      if detectorNo < n {
        var qualified := BatchPlanFile(workdirs[threadNo], newPlan, b);
        assert written' + [qualified] == plans[..detectorNo + 1] by {
          PlanFileOfSlot(workdirs, newPlan, b, threadNo);
          PlanFilesPrefixSnoc(workdirs, newPlan, n, detectorNo);
        }
        written' := written' + [qualified];
      } else if detectorNo == n {
        maxThreadNo := threadNo;
      }
      threadNo := threadNo + 1;
    }
  }

  lemma AsWrittenPrefixSnoc(w: nat, n: nat, b: nat)
    requires w > 0 && b < BatchPlanner.CeilDiv(n, w)
    ensures DetectorBatchesAsWritten(w, n)[..b + 1]
      == DetectorBatchesAsWritten(w, n)[..b] + [DetectorBatch(b, RecordedThreads(w, n, b))]
  {
  }

  /** A batch the loop reaches starts below the detector count. */
  lemma BatchStarts(w: nat, n: nat, b: nat)
    requires w > 0 && b < BatchPlanner.CeilDiv(n, w)
    ensures w * b < n && MinNat(w * b, n) == w * b
  {
    BatchPlanner.MulMono(w, b + 1, BatchPlanner.CeilDiv(n, w));
  }

  lemma AllBatchesDone(w: nat, n: nat, k: nat)
    requires w > 0 && k == BatchPlanner.CeilDiv(n, w)
    ensures MinNat(w * k, n) == n
  {
    assert w * k >= n;
  }

  lemma NextBatchBase(w: nat, b: nat)
    ensures w * b + w == w * (b + 1)
  {
  }

  /** The detector count the batch loop works with: a count that is not
      positive gives `ceil(count / W) <= 0` batches, as no count does. */
  function DetectorsCounted(count: int): nat {
    if count <= 0 then 0 else count
  }

  /** `math.ceil(number_detectors / len(workdirList))` with no workdirs:
      `number_detectors` is a table column, so numpy divides by zero to NaN
      (count 0) or an infinity, and neither converts to an integer. */
  function CeilOverNoWorkers(count: int): PyError {
    if count == 0 then ValueError("cannot convert float NaN to integer")
    else OverflowError("cannot convert float infinity to integer")
  }

  /** `create_plan`'s loop over batches, for the detector count `count` of
      the plan table: every detector below the count gets a plan file, and
      each batch records the thread count found by the inner loop; with no
      workdirs the batch count cannot be formed. */
  method CreatePlanBatches(workdirs: seq<string>, count: int, newPlan: string)
    returns (r: Result<(seq<DetectorBatch>, seq<string>)>)
    ensures |workdirs| == 0 ==> r == Err(CeilOverNoWorkers(count))
    ensures |workdirs| > 0 ==>
      r == Ok((DetectorBatchesAsWritten(|workdirs|, DetectorsCounted(count)),
               PlanFiles(workdirs, newPlan, DetectorsCounted(count))))
  {
    if |workdirs| == 0 {
      return Err(CeilOverNoWorkers(count));
    }
    var batchList, written := BatchLoop(workdirs, DetectorsCounted(count), newPlan);
    return Ok((batchList, written));
  }

  /** The batch loop itself, over `ceil(n / W)` batches of `n` detectors. */
  method BatchLoop(workdirs: seq<string>, n: nat, newPlan: string)
    returns (batchList: seq<DetectorBatch>, written: seq<string>)
    requires |workdirs| > 0
    ensures batchList == DetectorBatchesAsWritten(|workdirs|, n)
    ensures written == PlanFiles(workdirs, newPlan, n)
  {
    var w := |workdirs|;
    var numberBatches := BatchPlanner.CeilDiv(n, w);
    ghost var plans := PlanFiles(workdirs, newPlan, n);
    batchList := [];
    written := [];
    var batchNo := 0;
    ghost var done := 0;
    while batchNo < numberBatches
      invariant batchNo <= numberBatches
      invariant done == w * batchNo
      invariant batchList == DetectorBatchesAsWritten(w, n)[..batchNo]
      invariant written == plans[..MinNat(done, n)]
    {
      BatchStarts(w, n, batchNo);
      var maxThreadNo;
      maxThreadNo, written := PlanBatch(workdirs, n, newPlan, batchNo, written);
      AsWrittenPrefixSnoc(w, n, batchNo);
      batchList := batchList + [DetectorBatch(batchNo, maxThreadNo)];
      NextBatchBase(w, batchNo);
      batchNo := batchNo + 1;
      done := done + w;
    }
    assert batchList == DetectorBatchesAsWritten(w, n);
    AllBatchesDone(w, n, numberBatches);
    assert plans[..n] == plans;
  }

  /** The driver starts workers `0 .. nThreads - 1` of each batch, and
      worker `t` of batch `b` works on detector `W*b + t`. */
  predicate DetectorRun(batches: seq<DetectorBatch>, w: nat, d: nat) {
    exists b :: 0 <= b < |batches| && RunsIn(batches[b], w, d)
  }

  predicate RunsIn(batch: DetectorBatch, w: nat, d: nat) {
    w * batch.batchNo <= d < w * batch.batchNo + batch.nThreads
  }

  /** As written, a full batch records one thread fewer than it has
      detectors, while a part-filled last batch records its size. */
  lemma AsWrittenThreadCount(w: nat, n: nat, b: nat)
    requires w > 0 && b < |DetectorBatchesAsWritten(w, n)|
    ensures w * (b + 1) <= n ==>
      DetectorBatchesAsWritten(w, n)[b].nThreads == DetectorBatches(w, n)[b].nThreads - 1 == w - 1
    ensures w * (b + 1) > n ==>
      DetectorBatchesAsWritten(w, n)[b].nThreads == DetectorBatches(w, n)[b].nThreads
  {
    BatchPlanner.BatchShape(w, n, b);
  }

  /** With two workdirs and four detectors both batches are full: each
      records one thread, so detectors 1 and 3 get plan files but are
      never started. */
  lemma AsWrittenSkipsLastWorker()
    ensures DetectorBatchesAsWritten(2, 4) == [DetectorBatch(0, 1), DetectorBatch(1, 1)]
    ensures DetectorBatches(2, 4) == [DetectorBatch(0, 2), DetectorBatch(1, 2)]
    ensures !DetectorRun(DetectorBatchesAsWritten(2, 4), 2, 1)
    ensures DetectorRun(DetectorBatches(2, 4), 2, 1)
  {
    assert BatchPlanner.CeilDiv(4, 2) == 2;
    var a := DetectorBatchesAsWritten(2, 4);
    assert a[0] == DetectorBatch(0, 1) && a[1] == DetectorBatch(1, 1);
    assert a == [DetectorBatch(0, 1), DetectorBatch(1, 1)];
    var c := DetectorBatches(2, 4);
    assert BatchPlanner.PlannedBatch(2, 4, 0).nThreads == 2;
    assert BatchPlanner.PlannedBatch(2, 4, 1).nThreads == 2;
    assert c == [DetectorBatch(0, 2), DetectorBatch(1, 2)];
    assert RunsIn(c[0], 2, 1);
    assert !RunsIn(a[0], 2, 1) && !RunsIn(a[1], 2, 1);
  }

  /** With the intended thread counts every detector is started: detector
      `d` by batch `d / W`, whose worker `d % W` is the one whose workdir
      holds its plan file (`PlanFile`). */
  lemma IntendedRunsEveryDetector(w: nat, n: nat, d: nat)
    requires w > 0 && d < n
    ensures d / w < |DetectorBatches(w, n)| && RunsIn(DetectorBatches(w, n)[d / w], w, d)
    ensures DetectorRun(DetectorBatches(w, n), w, d)
  {
    BatchPlanner.SimNoCovers(w, n, d);
    BatchPlanner.BatchShape(w, n, d / w);
  }

  lemma IntendedRunsOnce(w: nat, n: nat, b1: nat, t1: nat, b2: nat, t2: nat)
    requires w > 0
    requires b1 < |DetectorBatches(w, n)| && t1 < DetectorBatches(w, n)[b1].nThreads
    requires b2 < |DetectorBatches(w, n)| && t2 < DetectorBatches(w, n)[b2].nThreads
    requires w * b1 + t1 == w * b2 + t2
    ensures b1 == b2 && t1 == t2
  {
    BatchPlanner.BatchShape(w, n, b1);
    BatchPlanner.BatchShape(w, n, b2);
    BatchPlanner.SimNoInjective(w, n, b1, t1, b2, t2);
  }
}
