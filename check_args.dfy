/** `check_args` of the calibration and bias runners: it fills in defaults,
    rejects unpaired argument lists, settles the number of workers, and
    makes the directories a run needs. The calibration runner also checks
    the pipeline-configuration keys and `--est_shear_only`; the bias runner
    builds the per-worker directories instead.

    Also here: the calibration runner's check of `--isf_args` against the
    base ISF before it prepares the simulation configurations.

    `find_aux_file` is the `aux` table, `multiprocessing.cpu_count()` is
    `cpu`; the check that the pipeline package exists only logs, so it is
    not part of this model. */
module CheckArgs {
  import opened Wrappers
  import opened Strings
  import opened Paths
  import opened OrderedDict
  import opened BatchPlanner
  import opened ThreadDirStruct
  import IsfArgs

  const DefaultWorkdir: string := "/home/user/Work/workspace"
  const DefaultLogdir: string := "logs"
  const DefaultClusterWorkdir: string := "/workspace/lodeen/workdir"

  /** The default ISF and configuration of the `bias_measurement` pipeline. */
  const DefaultIsf: string := "SHE_Pipeline/bias_measurement_isf.txt"
  const DefaultConfig: string := "SHE_Pipeline/bias_measurement_config.txt"

  /** The command-line values `check_args` reads; `None` is an argument that
      was not given. */
  datatype CliArgs = CliArgs(
    isf: Option<string>, config: Option<string>,
    isfArgs: Option<seq<string>>, configArgs: Option<seq<string>>, planArgs: Option<seq<string>>,
    workdir: Option<string>, logdir: Option<string>, cluster: bool,
    numberThreads: ThreadsArg, estShearOnly: Option<string>)

  /** What `find_aux_file` can find, the number of CPUs, and the disk. */
  datatype Host = Host(aux: map<string, string>, cpu: nat, disk: Disk)

  /** The arguments both runners settle. */
  datatype Settled = Settled(
    isf: string, config: string, isfArgs: seq<string>, configArgs: seq<string>, planArgs: seq<string>,
    workdir: string, logdir: string)

  // ---------------------------------------------------------------------
  // Single checks

  /** A given path, or the one `find_aux_file` finds for the default, which
      raises when there is none. */
  function AuxDefault(given: Option<string>, h: Host, name: string): (r: Result<string>)
    ensures given.Some? ==> r == Ok(given.value)
    ensures given.None? ==> (r.Ok? <==> name in h.aux)
  {
    if given.Some? then Ok(given.value)
    else if name in h.aux then Ok(h.aux[name])
    else Err(RuntimeError(name))
  }

  /** A list of paired arguments: a missing one is empty, an odd-length
      one is a ValueError naming the option. */
  function PairedArgs(a: Option<seq<string>>, option: string): (r: Result<seq<string>>)
    ensures a.None? ==> r == Ok([])
    ensures a.Some? ==> (r.Ok? <==> |a.value| % 2 == 0)
    ensures r.Ok? && a.Some? ==> r.value == a.value
    ensures r.Err? ==> r.error == ValueError(option)
  {
    match a
    case None => Ok([])
    case Some(s) => if |s| % 2 == 0 then Ok(s) else Err(ValueError(option))
  }

  function OrDefault(given: Option<string>, default: string): string {
    if given.Some? then given.value else default
  }

  /** The key of the `q`-th pair. */
  function PairKey(a: seq<string>, q: nat): string
    requires 2 * q < |a|
  {
    a[2 * q]
  }

  /** The first pair key from pair `q` on that is not an allowed
      configuration key. */
  function FirstUnknownKey(a: seq<string>, allowed: set<string>, q: nat): (r: Option<string>)
    decreases |a| - 2 * q
  {
    if 2 * q + 1 >= |a| then None
    else if PairKey(a, q) !in allowed then Some(PairKey(a, q))
    else FirstUnknownKey(a, allowed, q + 1)
  }

  /** There is no unknown key exactly when every pair's key is allowed. */
  lemma {:induction false} FirstUnknownKeyNone(a: seq<string>, allowed: set<string>, q: nat)
    ensures FirstUnknownKey(a, allowed, q).None? <==>
      forall p: nat :: q <= p && 2 * p + 1 < |a| ==> PairKey(a, p) in allowed
    ensures FirstUnknownKey(a, allowed, q).Some? ==> FirstUnknownKey(a, allowed, q).value !in allowed
    decreases |a| - 2 * q
  {
    if 2 * q + 1 < |a| {
      FirstUnknownKeyNone(a, allowed, q + 1);
    }
  }

  /** The loop over the configuration pairs, raising at the first key that
      is not a configuration key. */
  method CheckConfigKeys(a: seq<string>, allowed: set<string>) returns (r: Result<seq<string>>)
    ensures r == RecognisedConfigArgs(a, allowed)
  {
    var i := 0;
    while i < |a| / 2
      invariant 2 * i <= |a|
      invariant FirstUnknownKey(a, allowed, i) == FirstUnknownKey(a, allowed, 0)
    {
      var testArg := a[2 * i];
      if testArg !in allowed {
        return Err(ValueError(testArg));
      }
      i := i + 1;
    }
    return Ok(a);
  }

  /** The configuration pairs unchanged, or a ValueError naming the first
      key that is not a configuration key. */
  function RecognisedConfigArgs(a: seq<string>, allowed: set<string>): (r: Result<seq<string>>)
    ensures r.Ok? ==> r.value == a
  {
    match FirstUnknownKey(a, allowed, 0)
    case None => Ok(a)
    case Some(k) => Err(ValueError(k))
  }

  /** `--est_shear_only` as the calibration runner checks it: a non-empty
      value that is all digits is accepted whatever its number, and the
      flag is set only when that number is 1. */
  function EstShearOnlyAsWritten(given: Option<string>): Result<bool> {
    if given.None? || given.value == "" then Ok(false)
    else
      var s := given.value;
      if IsDigits(s) then Ok(DigitsValue(s) == 1)
      else
        match PyInt(s)
        case Err(e) => Err(e)
        case Ok(n) => if n != 0 && n != 1 then Err(ValueError("est_shear_only")) else Ok(n == 1)
  }

  /** The check as its message states it: the value must be 0 or 1. */
  function EstShearOnly(given: Option<string>): (r: Result<bool>)
    ensures given.Some? && given.value != "" ==>
      (r.Ok? <==> PyInt(given.value) == Ok(0) || PyInt(given.value) == Ok(1))
    ensures given.Some? && given.value != "" && r.Ok? ==> (r.value <==> PyInt(given.value) == Ok(1))
    ensures given.None? ==> r == Ok(false)
  {
    if given.None? || given.value == "" then Ok(false)
    else
      match PyInt(given.value)
      case Err(e) => Err(ValueError("est_shear_only"))
      case Ok(n) => if n != 0 && n != 1 then Err(ValueError("est_shear_only")) else Ok(n == 1)
  }

  /** The check as written: a given value passes exactly when it is all
      digits or reads as 0 or 1, and it sets the flag exactly when it
      reads as 1. */
  lemma EstShearOnlyAsWrittenOkIff(s: string)
    requires s != ""
    ensures EstShearOnlyAsWritten(Some(s)).Ok? <==> IsDigits(s) || PyInt(s) == Ok(0) || PyInt(s) == Ok(1)
    ensures EstShearOnlyAsWritten(Some(s)).Ok? ==> (EstShearOnlyAsWritten(Some(s)).value <==> PyInt(s) == Ok(1))
  {
    if IsDigits(s) {
      PyIntOfDigits(s);
    }
  }

  /** As written, `2` passes the check and silently means "not only shear
      estimation"; the check its message describes rejects it. */
  lemma EstShearOnlyAcceptsTwo()
    ensures EstShearOnlyAsWritten(Some("2")) == Ok(false)
    ensures EstShearOnly(Some("2")).Err?
  {
    assert IsDigits("2");
    assert DigitsValue("2") == 2 by {
      assert "2"[..0] == [];
    }
    PyIntOfDigits("2");
  }

  // ---------------------------------------------------------------------
  // The two check_args

  /** The directories the calibration runner makes, in order: the workdir,
      its `cache` and `data`, and the log directory (checked twice, under
      two names). */
  function CalibDirs(workdir: string, logdir: string): seq<string> {
    [workdir, PathJoin(workdir, "cache"), PathJoin(workdir, "data"),
     PathJoin(workdir, logdir), PathJoin(workdir, logdir)]
  }

  datatype CalibChecked = CalibChecked(s: Settled, numberThreads: nat, estShearOnly: bool, disk: Disk)

  /** The calibration runner's `check_args`; `allowed` is the set of
      pipeline-configuration keys. */
  function CalibCheckArgs(a: CliArgs, h: Host, allowed: set<string>): (r: Result<CalibChecked>)
    requires h.cpu >= 1
  {
    var isf :- AuxDefault(a.isf, h, DefaultIsf);
    var config :- AuxDefault(a.config, h, DefaultConfig);
    var isfArgs :- PairedArgs(a.isfArgs, "args");
    var configArgs0 :- PairedArgs(a.configArgs, "config_args");
    var configArgs :- RecognisedConfigArgs(configArgs0, allowed);
    var workdir := OrDefault(a.workdir, if a.cluster then DefaultClusterWorkdir else DefaultWorkdir);
    var logdir := OrDefault(a.logdir, DefaultLogdir);
    var threads :- ClampThreads(a.numberThreads, h.cpu);
    var est :- EstShearOnlyAsWritten(a.estShearOnly);
    var disk :- MakeDirs(h.disk, CalibDirs(workdir, logdir));
    var planArgs :- PairedArgs(a.planArgs, "plan_args");
    Ok(CalibChecked(Settled(isf, config, isfArgs, configArgs, planArgs, workdir, logdir), threads, est, disk))
  }

  datatype BiasChecked = BiasChecked(s: Settled, dirStruct: seq<DirStruct>, disk: Disk)

  /** The bias runner's `check_args`: the workers' directories are built
      under the single workdir before the plan arguments are checked. */
  function BiasCheckArgs(a: CliArgs, h: Host): (r: Result<BiasChecked>)
    requires h.cpu >= 1
  {
    var isf :- AuxDefault(a.isf, h, DefaultIsf);
    var config :- AuxDefault(a.config, h, DefaultConfig);
    var isfArgs :- PairedArgs(a.isfArgs, "args");
    var configArgs :- PairedArgs(a.configArgs, "config_args");
    var workdir := OrDefault(a.workdir, if a.cluster then DefaultClusterWorkdir else DefaultWorkdir);
    var logdir := OrDefault(a.logdir, DefaultLogdir);
    var threads :- ClampThreads(a.numberThreads, h.cpu);
    var ds :- CreateThreadDirStruct([workdir], logdir, threads, h.disk);
    var planArgs :- PairedArgs(a.planArgs, "plan_args");
    Ok(BiasChecked(Settled(isf, config, isfArgs, configArgs, planArgs, workdir, logdir), ds.0, ds.1))
  }

  /** What every successful `check_args` leaves behind: paired lists, the
      defaults in place of missing values, and a worker count in
      `[1, cpu]`. */
  predicate SettledFrom(a: CliArgs, s: Settled) {
    |s.isfArgs| % 2 == 0 && |s.configArgs| % 2 == 0 && |s.planArgs| % 2 == 0 &&
    (a.isfArgs.Some? ==> s.isfArgs == a.isfArgs.value) && (a.isfArgs.None? ==> s.isfArgs == []) &&
    (a.configArgs.Some? ==> s.configArgs == a.configArgs.value) && (a.configArgs.None? ==> s.configArgs == []) &&
    (a.planArgs.Some? ==> s.planArgs == a.planArgs.value) && (a.planArgs.None? ==> s.planArgs == []) &&
    (a.isf.Some? ==> s.isf == a.isf.value) && (a.config.Some? ==> s.config == a.config.value) &&
    s.workdir == (if a.workdir.Some? then a.workdir.value else if a.cluster then DefaultClusterWorkdir else DefaultWorkdir) &&
    s.logdir == (if a.logdir.Some? then a.logdir.value else DefaultLogdir)
  }

  /** After the calibration `check_args`: the arguments are settled, every
      configuration key is allowed, the worker count is within `[1, cpu]`,
      the shear-only flag is the as-written check's, and the workdir, its `cache`, `data` and log directories exist. */
  lemma CalibCheckedArgs(a: CliArgs, h: Host, allowed: set<string>)
    requires h.cpu >= 1 && CalibCheckArgs(a, h, allowed).Ok?
    ensures SettledFrom(a, CalibCheckArgs(a, h, allowed).value.s)
    ensures forall p: nat :: 2 * p + 1 < |CalibCheckArgs(a, h, allowed).value.s.configArgs| ==>
      PairKey(CalibCheckArgs(a, h, allowed).value.s.configArgs, p) in allowed
    ensures 1 <= CalibCheckArgs(a, h, allowed).value.numberThreads <= h.cpu
    ensures Ok(CalibCheckArgs(a, h, allowed).value.estShearOnly) == EstShearOnlyAsWritten(a.estShearOnly)
    ensures Elems(CalibDirs(CalibCheckArgs(a, h, allowed).value.s.workdir, CalibCheckArgs(a, h, allowed).value.s.logdir))
      <= CalibCheckArgs(a, h, allowed).value.disk.dirs
  {
    var ca := PairedArgs(a.configArgs, "config_args");
    assert ca.Ok?;
    assert RecognisedConfigArgs(ca.value, allowed).Ok?;
    assert ClampThreads(a.numberThreads, h.cpu).Ok?;
    assert EstShearOnlyAsWritten(a.estShearOnly).Ok?;
    var workdir := OrDefault(a.workdir, if a.cluster then DefaultClusterWorkdir else DefaultWorkdir);
    var logdir := OrDefault(a.logdir, DefaultLogdir);
    var disk := MakeDirs(h.disk, CalibDirs(workdir, logdir));
    assert disk.Ok?;
    var r := CalibCheckArgs(a, h, allowed).value;
    assert r.s.workdir == workdir && r.s.logdir == logdir && r.disk == disk.value;
    FirstUnknownKeyNone(ca.value, allowed, 0);
    MakeDirsSpec(h.disk, CalibDirs(workdir, logdir));
  }

  /** A configuration pair whose key is not allowed stops the calibration
      `check_args` with a ValueError, once the earlier checks pass. */
  lemma UnknownConfigKeyRejected(a: CliArgs, h: Host, allowed: set<string>, p: nat)
    requires h.cpu >= 1
    requires AuxDefault(a.isf, h, DefaultIsf).Ok? && AuxDefault(a.config, h, DefaultConfig).Ok?
    requires PairedArgs(a.isfArgs, "args").Ok? && a.configArgs.Some? && |a.configArgs.value| % 2 == 0
    requires 2 * p + 1 < |a.configArgs.value| && PairKey(a.configArgs.value, p) !in allowed
    ensures CalibCheckArgs(a, h, allowed).Err?
    ensures CalibCheckArgs(a, h, allowed).error.ValueError?
    ensures CalibCheckArgs(a, h, allowed).error.what !in allowed
  {
    FirstUnknownKeyNone(a.configArgs.value, allowed, 0);
  }

  /** After the bias `check_args`: the arguments are settled and there is one
      directory entry per worker, `thread<i>` under the workdir, numbering
      between 1 and `cpu`. */
  lemma BiasCheckedArgs(a: CliArgs, h: Host, i: nat)
    requires h.cpu >= 1 && BiasCheckArgs(a, h).Ok?
    ensures SettledFrom(a, BiasCheckArgs(a, h).value.s)
    ensures 1 <= |BiasCheckArgs(a, h).value.dirStruct| <= h.cpu
    ensures i < |BiasCheckArgs(a, h).value.dirStruct| ==>
      BiasCheckArgs(a, h).value.dirStruct[i].workdir == ThreadDir(BiasCheckArgs(a, h).value.s.workdir, i) &&
      BiasCheckArgs(a, h).value.dirStruct[i].appWorkdir.None?
  {
    var workdir := OrDefault(a.workdir, if a.cluster then DefaultClusterWorkdir else DefaultWorkdir);
    var logdir := OrDefault(a.logdir, DefaultLogdir);
    var t := ClampThreads(a.numberThreads, h.cpu);
    assert t.Ok?;
    var threads := t.value;
    var ds := CreateThreadDirStruct([workdir], logdir, threads, h.disk);
    assert ds.Ok?;
    var r := BiasCheckArgs(a, h).value;
    assert r.s.workdir == workdir && r.dirStruct == ds.value.0;
    ThreadEntries([workdir], logdir, threads, h.disk, 0);
    if i < threads {
      ThreadEntries([workdir], logdir, threads, h.disk, i);
    }
  }

  // ---------------------------------------------------------------------
  // Checking isf_args against the base ISF (calibration runner)

  /** `for i in range(len(isf_args) // 2)` from pair `q` on: each key must
      already be set from the base ISF, and then takes the pair's value. */
  function OverrideKnown(d: Dict, a: seq<string>, q: nat): (r: Result<Dict>)
    decreases |a| - 2 * q
  {
    if 2 * q + 1 >= |a| then Ok(d)
    else if !HasKey(d, PairKey(a, q)) then Err(ValueError(PairKey(a, q)))
    else OverrideKnown(Set(d, PairKey(a, q), a[2 * q + 1]), a, q + 1)
  }

  /** Every pair's key from pair `q` on is one of `ks`. */
  ghost predicate PairKeysIn(a: seq<string>, q: nat, ks: seq<string>) {
    forall p: nat :: q <= p && 2 * p + 1 < |a| ==> PairKey(a, p) in ks
  }

  lemma PairKeysInStep(a: seq<string>, q: nat, ks: seq<string>)
    requires 2 * q + 1 < |a|
    ensures PairKeysIn(a, q, ks) <==> PairKey(a, q) in ks && PairKeysIn(a, q + 1, ks)
  {
  }

  /** `PairKeysIn`, pair by pair. */
  predicate PairKeysFrom(a: seq<string>, q: nat, ks: seq<string>)
    decreases |a| - 2 * q
  {
    2 * q + 1 >= |a| || (PairKey(a, q) in ks && PairKeysFrom(a, q + 1, ks))
  }

  lemma {:induction false} PairKeysFromIff(a: seq<string>, q: nat, ks: seq<string>)
    ensures PairKeysFrom(a, q, ks) <==> PairKeysIn(a, q, ks)
    decreases |a| - 2 * q
  {
    if 2 * q + 1 < |a| {
      PairKeysFromIff(a, q + 1, ks);
      PairKeysInStep(a, q, ks);
    }
  }

  lemma {:induction false} OverrideKnownOkFrom(d: Dict, a: seq<string>, q: nat, ks: seq<string>)
    requires Keys(d) == ks
    ensures OverrideKnown(d, a, q).Ok? <==> PairKeysFrom(a, q, ks)
    decreases |a| - 2 * q
  {
    if 2 * q + 1 < |a| && HasKey(d, PairKey(a, q)) {
      var d' := Set(d, PairKey(a, q), a[2 * q + 1]);
      OverrideKnownOkFrom(d', a, q + 1, ks);
    }
  }

  /** The overrides succeed exactly when every pair's key is a key of the
      base ISF. */
  lemma OverrideKnownOkIff(d: Dict, a: seq<string>, q: nat)
    ensures OverrideKnown(d, a, q).Ok? <==> PairKeysIn(a, q, Keys(d))
  {
    OverrideKnownOkFrom(d, a, q, Keys(d));
    PairKeysFromIff(a, q, Keys(d));
  }

  /** The overrides add no key, and a failure names a key the base ISF does
      not set. */
  lemma {:induction false} OverrideKnownKeys(d: Dict, a: seq<string>, q: nat)
    ensures OverrideKnown(d, a, q).Ok? ==> Keys(OverrideKnown(d, a, q).value) == Keys(d)
    ensures OverrideKnown(d, a, q).Err? ==>
      OverrideKnown(d, a, q).error.ValueError? && !HasKey(d, OverrideKnown(d, a, q).error.what)
    decreases |a| - 2 * q
  {
    if 2 * q + 1 < |a| && HasKey(d, PairKey(a, q)) {
      var d' := Set(d, PairKey(a, q), a[2 * q + 1]);
      OverrideKnownKeys(d', a, q + 1);
    }
  }

  /** The base ISF `isf` as `find_file` finds it (`baseIsf`, None when it
      is not found: RuntimeError), its `key=value` lines (first one wins),
      then the overrides, then the configuration template, which must be
      set and found: the map and the template's path. `found` is what
      `find_file` finds and `present` what exists. */
  function CalibIsfSettings(isf: string, baseIsf: Option<seq<string>>, a: seq<string>,
                            found: map<string, string>, present: set<string>)
    : (r: Result<(Dict, string)>)
    ensures baseIsf.None? ==> r == Err(RuntimeError(isf))
  {
    if baseIsf.None? then Err(RuntimeError(isf))
    else
      var d :- OverrideKnown(IsfArgs.Fill([], baseIsf.value, false), a, 0);
      match Get(d, "config_template")
      case None => Err(Exception("configuration template not found"))
      case Some(t) =>
        if t !in found then Err(RuntimeError(t))
        else if found[t] !in present then Err(Exception("configuration template not found"))
        else Ok((d, found[t]))
  }

  /** The base ISF and the loop over the pairs, as the runner writes them. */
  method CheckIsfArgs(isf: string, baseIsf: Option<seq<string>>, a: seq<string>,
                      found: map<string, string>, present: set<string>)
    returns (r: Result<(Dict, string)>)
    ensures r == CalibIsfSettings(isf, baseIsf, a, found, present)
  {
    if baseIsf.None? {
      return Err(RuntimeError(isf));
    }
    var lines := baseIsf.value;
    var argsToSet := IsfArgs.ReadTemplate([], lines, false);
    var i := 0;
    while i < |a| / 2
      invariant 2 * i <= |a|
      invariant OverrideKnown(argsToSet, a, i) == OverrideKnown(IsfArgs.Fill([], lines, false), a, 0)
    {
      var key := a[2 * i];
      var val := a[2 * i + 1];
      if !HasKey(argsToSet, key) {
        return Err(ValueError(key));
      }
      argsToSet := Set(argsToSet, key, val);
      i := i + 1;
    }
    var t := Get(argsToSet, "config_template");
    if t.None? {
      return Err(Exception("configuration template not found"));
    }
    if t.value !in found {
      return Err(RuntimeError(t.value));
    }
    if found[t.value] !in present {
      return Err(Exception("configuration template not found"));
    }
    return Ok((argsToSet, found[t.value]));
  }

  /** When the base ISF is found, an isf_args key that no line of it sets
      is rejected, and the accepted map has exactly the base ISF's keys. */
  lemma IsfArgsMustBeKnown(isf: string, lines: seq<string>, a: seq<string>,
                           found: map<string, string>, present: set<string>)
    ensures (exists p: nat :: 2 * p + 1 < |a| && PairKey(a, p) !in Keys(IsfArgs.Fill([], lines, false))) ==>
      CalibIsfSettings(isf, Some(lines), a, found, present).Err? &&
      CalibIsfSettings(isf, Some(lines), a, found, present).error.ValueError?
    ensures CalibIsfSettings(isf, Some(lines), a, found, present).Ok? ==>
      Keys(CalibIsfSettings(isf, Some(lines), a, found, present).value.0) == Keys(IsfArgs.Fill([], lines, false))
  {
    OverrideKnownOkIff(IsfArgs.Fill([], lines, false), a, 0);
    OverrideKnownKeys(IsfArgs.Fill([], lines, false), a, 0);
  }
}
