/** The key/value map from which the drivers write an ISF (input
    specification file) or a pipeline configuration: control keys seeded
    first, then the command-line pairs, then the lines of a template that
    name keys not yet set; the map is written one `key=value` line per
    entry, in first-insertion order. */
module IsfArgs {
  import opened Wrappers
  import opened Strings
  import opened Paths
  import opened OrderedDict
  import RunPipelineParallel
  import opened ThreadDirStruct

  /** Which driver builds the map: the calibration runner, the bias
      runner, or the detector-parallel runner working on batch `batchNo`. */
  datatype Variant = Calibration | Bias | Batched(batchNo: nat)

  // ---------------------------------------------------------------------
  // Seeding

  /** The five control keys every driver sets first; `pkgRepository` is
      the package directory and `pipelineDir` its `SHE_Pipeline_pkgdef`
      subdirectory. */
  function Seed(workdir: string, logdir: string, pipelineDir: string, configFilename: string): (d: Dict)
    ensures Valid(d)
    ensures Keys(d) == ["workdir", "logdir", "pkgRepository", "pipelineDir", "pipeline_config"]
    ensures Get(d, "workdir") == Some(workdir) && Get(d, "logdir") == Some(logdir)
    ensures Get(d, "pkgRepository") == Some(pipelineDir)
    ensures Get(d, "pipelineDir") == Some(PathJoin(pipelineDir, "SHE_Pipeline_pkgdef"))
    ensures Get(d, "pipeline_config") == Some(configFilename)
  {
    var d := [("workdir", workdir), ("logdir", logdir), ("pkgRepository", pipelineDir),
              ("pipelineDir", PathJoin(pipelineDir, "SHE_Pipeline_pkgdef")), ("pipeline_config", configFilename)];
    KeysAt(d);
    GetAt(d, 2);
    GetAt(d, 3);
    GetAt(d, 4);
    d
  }

  // ---------------------------------------------------------------------
  // Command-line pairs

  /** The value a pair assigns: the detector-parallel runner gives every
      value that looks like a path its batch tag. */
  function PairValue(v: Variant, value: string): string {
    if v.Batched? && RunPipelineParallel.IsFilename(value)
    then RunPipelineParallel.ConvertToBatchFilename(value, v.batchNo)
    else value
  }

  /** The `while arg_i < len(args)` loop from position `i` on: each pair
      `args[i], args[i+1]` assigns its key; a key without a value raises
      IndexError. */
  function ApplyPairs(d: Dict, a: seq<string>, i: nat, v: Variant): Result<Dict>
    requires i <= |a|
    decreases |a| - i
  {
    if i == |a| then Ok(d)
    else if i + 1 == |a| then Err(IndexError)
    else ApplyPairs(Set(d, a[i], PairValue(v, a[i + 1])), a, i + 2, v)
  }

  /** The loop as `create_simulate_measure_inputs` and `create_isf` run it,
      updating the map in place. */
  method ApplyIsfArgs(d: Dict, a: seq<string>, v: Variant) returns (r: Result<Dict>)
    ensures r == ApplyPairs(d, a, 0, v)
  {
    var argsToSet := d;
    var argI := 0;
    while argI < |a|
      invariant argI <= |a|
      invariant ApplyPairs(argsToSet, a, argI, v) == ApplyPairs(d, a, 0, v)
      decreases |a| - argI
    {
      if argI + 1 >= |a| {
        return Err(IndexError);
      }
      argsToSet := Set(argsToSet, a[argI], PairValue(v, a[argI + 1]));
      argI := argI + 2;
    }
    return Ok(argsToSet);
  }

  /** The value the last pair from position `i` on gives key `k`, if any
      pair names it. */
  function LastPairValue(a: seq<string>, i: nat, k: string, v: Variant): Option<string>
    decreases |a| - i
  {
    if i + 1 >= |a| then None
    else
      var later := LastPairValue(a, i + 2, k, v);
      if later.Some? then later
      else if a[i] == k then Some(PairValue(v, a[i + 1]))
      else None
  }

  /** The pairs apply exactly when the list has even length from `i` on. */
  lemma {:induction false} ApplyPairsOkIff(d: Dict, a: seq<string>, i: nat, v: Variant)
    requires i <= |a|
    ensures ApplyPairs(d, a, i, v).Ok? <==> (|a| - i) % 2 == 0
    decreases |a| - i
  {
    if i + 1 < |a| {
      var d' := Set(d, a[i], PairValue(v, a[i + 1]));
      assert ApplyPairs(d, a, i, v) == ApplyPairs(d', a, i + 2, v);
      ApplyPairsOkIff(d', a, i + 2, v);
      assert (|a| - i) % 2 == (|a| - (i + 2)) % 2 by {
        ParityStep(|a| - (i + 2));
      }
    }
  }

  lemma ParityStep(n: nat)
    ensures (n + 2) % 2 == n % 2
  {
  }

  /** The only failure is a key without a value. */
  lemma {:induction false} ApplyPairsError(d: Dict, a: seq<string>, i: nat, v: Variant)
    requires i <= |a|
    ensures ApplyPairs(d, a, i, v).Err? ==> ApplyPairs(d, a, i, v).error == IndexError
    decreases |a| - i
  {
    if i + 1 < |a| {
      ApplyPairsError(Set(d, a[i], PairValue(v, a[i + 1])), a, i + 2, v);
    }
  }

  /** The last pair naming a key wins; a key no pair names keeps its value. */
  lemma {:induction false} ApplyPairsLookup(d: Dict, a: seq<string>, i: nat, v: Variant, k: string)
    requires i <= |a| && ApplyPairs(d, a, i, v).Ok?
    ensures Get(ApplyPairs(d, a, i, v).value, k)
      == if LastPairValue(a, i, k, v).Some? then LastPairValue(a, i, k, v) else Get(d, k)
    decreases |a| - i
  {
    if i + 1 < |a| {
      var d' := Set(d, a[i], PairValue(v, a[i + 1]));
      assert ApplyPairs(d, a, i, v) == ApplyPairs(d', a, i + 2, v);
      ApplyPairsLookup(d', a, i + 2, v, k);
      assert Get(d', k) == if a[i] == k then Some(PairValue(v, a[i + 1])) else Get(d, k);
    } else {
      assert ApplyPairs(d, a, i, v) == Ok(d);
    }
  }

  /** Keys already present keep their place and keys stay unique. */
  lemma {:induction false} ApplyPairsKeys(d: Dict, a: seq<string>, i: nat, v: Variant)
    requires i <= |a| && ApplyPairs(d, a, i, v).Ok?
    ensures Keys(d) <= Keys(ApplyPairs(d, a, i, v).value)
    ensures Valid(d) ==> Valid(ApplyPairs(d, a, i, v).value)
    decreases |a| - i
  {
    if i + 1 < |a| {
      var d' := Set(d, a[i], PairValue(v, a[i + 1]));
      assert ApplyPairs(d, a, i, v) == ApplyPairs(d', a, i + 2, v);
      ApplyPairsKeys(d', a, i + 2, v);
      assert Keys(d) <= Keys(d');
      if Valid(d) {
        SetValid(d, a[i], PairValue(v, a[i + 1]));
      }
    }
  }

  /** A pair overrides a control key, and the key keeps its place. */
  lemma PairOverridesControlKey(workdir: string, logdir: string, pipelineDir: string, config: string, w: string)
    ensures ApplyPairs(Seed(workdir, logdir, pipelineDir, config), ["workdir", w], 0, Bias).Ok?
    ensures Get(ApplyPairs(Seed(workdir, logdir, pipelineDir, config), ["workdir", w], 0, Bias).value, "workdir") == Some(w)
    ensures Keys(ApplyPairs(Seed(workdir, logdir, pipelineDir, config), ["workdir", w], 0, Bias).value)
      == Keys(Seed(workdir, logdir, pipelineDir, config))
  {
    var s := Seed(workdir, logdir, pipelineDir, config);
    assert HasKey(s, "workdir");
    assert ApplyPairs(s, ["workdir", w], 0, Bias) == ApplyPairs(Set(s, "workdir", w), ["workdir", w], 2, Bias);
  }

  // ---------------------------------------------------------------------
  // Template lines

  /** The key of a template line: the text before the first `=` of the
      stripped line; `create_config` strips it again. */
  function LineKey(line: string, strip: bool): string {
    var sl := SplitOn(Strip(line), "=");
    if strip then Strip(sl[0]) else sl[0]
  }

  /** The value of a template line: the text between the first and the
      second `=`, or none when the line has no `=`. */
  function LineValue(line: string, strip: bool): Option<string> {
    var sl := SplitOn(Strip(line), "=");
    if |sl| > 1 then Some(if strip then Strip(sl[1]) else sl[1]) else None
  }

  /** One template line: it sets its key only if the key is not yet set
      and the line has a value. */
  function FillStep(d: Dict, line: string, strip: bool): Dict {
    var k := LineKey(line, strip);
    var val := LineValue(line, strip);
    if !HasKey(d, k) && val.Some? then Set(d, k, val.value) else d
  }

  function Fill(d: Dict, lines: seq<string>, strip: bool): Dict
    decreases |lines|
  {
    if lines == [] then d else Fill(FillStep(d, lines[0], strip), lines[1..], strip)
  }

  /** The `for line in fi` loop over the template. */
  method ReadTemplate(d: Dict, lines: seq<string>, strip: bool) returns (r: Dict)
    ensures r == Fill(d, lines, strip)
  {
    r := d;
    var i := 0;
    while i < |lines|
      invariant i <= |lines|
      invariant Fill(r, lines[i..], strip) == Fill(d, lines, strip)
    {
      assert lines[i..][1..] == lines[i + 1..];
      r := FillStep(r, lines[i], strip);
      i := i + 1;
    }
    assert lines[i..] == [];
  }

  /** The value the first template line that names `k` with a value gives it. */
  function FirstLineValue(lines: seq<string>, k: string, strip: bool): Option<string> {
    if lines == [] then None
    else if LineKey(lines[0], strip) == k && LineValue(lines[0], strip).Some? then LineValue(lines[0], strip)
    else FirstLineValue(lines[1..], k, strip)
  }

  /** The template never overrides a key that is set, and sets an unset
      key to the value of the first line that names it. */
  lemma {:induction false} FillLookup(d: Dict, lines: seq<string>, strip: bool, k: string)
    ensures HasKey(d, k) ==> Get(Fill(d, lines, strip), k) == Get(d, k)
    ensures !HasKey(d, k) ==> Get(Fill(d, lines, strip), k) == FirstLineValue(lines, k, strip)
    decreases |lines|
  {
    if lines != [] {
      FillLookup(FillStep(d, lines[0], strip), lines[1..], strip, k);
    }
  }

  /** Key order and uniqueness are kept. */
  lemma {:induction false} FillKeys(d: Dict, lines: seq<string>, strip: bool)
    ensures Keys(d) <= Keys(Fill(d, lines, strip))
    ensures Valid(d) ==> Valid(Fill(d, lines, strip))
    decreases |lines|
  {
    if lines != [] {
      var d' := FillStep(d, lines[0], strip);
      assert Fill(d, lines, strip) == Fill(d', lines[1..], strip);
      FillKeys(d', lines[1..], strip);
      assert Keys(d) <= Keys(d');
      if Valid(d) && d' != d {
        SetValid(d, LineKey(lines[0], strip), LineValue(lines[0], strip).value);
      }
    }
  }

  /** Splitting `k=a=rest` on `=` gives `k` and `a` first. */
  lemma ThreePartSplit(k: string, a: string, rest: string)
    requires '=' !in k && '=' !in a
    ensures SplitOn(k + "=" + a + "=" + rest, "=") == [k, a] + SplitOn(rest, "=")
  {
    assert k + "=" + a + "=" + rest == k + "=" + (a + "=" + rest);
    assert SplitOn(k + "=" + (a + "=" + rest), "=") == [k] + SplitOn(a + "=" + rest, "=") by {
      SplitAtFirstChar(k, '=', a + "=" + rest);
    }
    assert SplitOn(a + "=" + rest, "=") == [a] + SplitOn(rest, "=") by {
      SplitAtFirstChar(a, '=', rest);
    }
  }

  /** The value is the second `=`-separated part: `k=a=b` gives `a`. */
  lemma SecondPartIsValue(k: string, a: string, rest: string, strip: bool)
    requires k != [] && Clean(k) && Clean(a) && Clean(rest)
    ensures LineKey(k + "=" + a + "=" + rest, strip) == k
    ensures LineValue(k + "=" + a + "=" + rest, strip) == Some(a)
  {
    var line := k + "=" + a + "=" + rest;
    StripThreePartLine(k, a, rest);
    assert |SplitOn(Strip(line), "=")| > 1 && SplitOn(Strip(line), "=")[0] == k && SplitOn(Strip(line), "=")[1] == a by {
      ThreePartSplit(k, a, rest);
    }
    assert Strip(k) == k && Strip(a) == a by {
      StripNoEdgeSpace(k);
      StripNoEdgeSpace(a);
    }
  }

  lemma StripThreePartLine(k: string, a: string, rest: string)
    requires k != [] && Clean(k) && Clean(rest)
    ensures Strip(k + "=" + a + "=" + rest) == k + "=" + a + "=" + rest
  {
    var line := k + "=" + a + "=" + rest;
    assert line[0] == k[0];
    assert line[|line| - 1] == if rest == [] then '=' else rest[|rest| - 1];
    StripNoEdgeSpace(line);
  }

  // ---------------------------------------------------------------------
  // Writing the map

  function IsfLine(e: (string, string)): string {
    e.0 + "=" + e.1 + "\n"
  }

  /** The lines of the written file, one per entry, in map order. */
  function IsfLines(d: Dict): (r: seq<string>)
    ensures |r| == |d|
  {
    seq(|d|, i requires 0 <= i < |d| => IsfLine(d[i]))
  }

  /** `for arg in args_to_set: fo.write(arg + "=" + args_to_set[arg] + "\n")`. */
  method WriteIsf(d: Dict) returns (written: seq<string>)
    ensures written == IsfLines(d)
    ensures forall i :: 0 <= i < |d| ==> written[i] == d[i].0 + "=" + d[i].1 + "\n"
  {
    written := [];
    var i := 0;
    while i < |d|
      invariant i <= |d| && written == IsfLines(d)[..i]
    {
      written := written + [IsfLine(d[i])];
      i := i + 1;
    }
    assert IsfLines(d)[..|d|] == IsfLines(d);
  }

  /** A key or value that survives a read-back: no `=`, no line break and
      no whitespace at its ends. */
  predicate Clean(s: string) {
    '=' !in s && '\n' !in s && (s != [] ==> !IsSpace(s[0]) && !IsSpace(s[|s| - 1]))
  }

  /** Stripping a written line removes only its line break. */
  lemma StripWrittenLine(k: string, v: string)
    requires Clean(k) && Clean(v)
    ensures Strip(k + "=" + v + "\n") == k + "=" + v
  {
    var body := k + "=" + v;
    assert body[0] == if k == [] then '=' else k[0];
    assert body[|body| - 1] == if v == [] then '=' else v[|v| - 1];
    StripLineBreak(body);
  }

  /** Splitting `k=v` on `=` when neither part holds `=`. */
  lemma SplitPair(k: string, v: string)
    requires '=' !in k && '=' !in v
    ensures SplitOn(k + "=" + v, "=") == [k, v]
  {
    SplitAtFirstChar(k, '=', v);
    CharAbsent(v, '=');
    assert SplitOn(v, "=") == [v];
  }

  /** A line whose stripped text splits into two stripped parts names
      the first with the second as value. */
  lemma LineOfParts(line: string, k: string, v: string, strip: bool)
    requires SplitOn(Strip(line), "=") == [k, v]
    requires Strip(k) == k && Strip(v) == v
    ensures LineKey(line, strip) == k && LineValue(line, strip) == Some(v)
  {
  }

  /** A written line reads back as its key and value. */
  lemma LineRoundTrip(k: string, v: string, strip: bool)
    requires Clean(k) && Clean(v)
    ensures LineKey(k + "=" + v + "\n", strip) == k
    ensures LineValue(k + "=" + v + "\n", strip) == Some(v)
  {
    var line := k + "=" + v + "\n";
    assert SplitOn(Strip(line), "=") == [k, v] by {
      StripWrittenLine(k, v);
      SplitPair(k, v);
    }
    assert Strip(k) == k && Strip(v) == v by {
      StripNoEdgeSpace(k);
      StripNoEdgeSpace(v);
    }
    LineOfParts(line, k, v, strip);
  }

  /** Reading back a written map with clean keys and values through the
      template loop, into an empty map, gives the map again. */
  lemma {:induction false} IsfRoundTrip(d: Dict, i: nat, strip: bool)
    requires Valid(d) && i <= |d|
    requires forall j :: 0 <= j < |d| ==> Clean(d[j].0) && Clean(d[j].1)
    ensures Fill(d[..i], IsfLines(d)[i..], strip) == d
    decreases |d| - i
  {
    if i == |d| {
      assert IsfLines(d)[i..] == [];
      assert d[..i] == d;
    } else {
      RoundTripStep(d, i, strip);
      IsfRoundTrip(d, i + 1, strip);
    }
  }

  /** Reading back line `i` appends entry `i`. */
  lemma RoundTripStep(d: Dict, i: nat, strip: bool)
    requires Valid(d) && i < |d|
    requires Clean(d[i].0) && Clean(d[i].1)
    ensures Fill(d[..i], IsfLines(d)[i..], strip) == Fill(d[..i + 1], IsfLines(d)[i + 1..], strip)
  {
    var pre := d[..i];
    var lines := IsfLines(d)[i..];
    assert !HasKey(pre, d[i].0) by {
      KeysAt(pre);
      forall j | 0 <= j < i
        ensures Keys(pre)[j] != d[i].0
      {
        assert pre[j] == d[j];
      }
    }
    assert FillStep(pre, lines[0], strip) == Set(pre, d[i].0, d[i].1) by {
      assert lines[0] == d[i].0 + "=" + d[i].1 + "\n";
      LineRoundTrip(d[i].0, d[i].1, strip);
    }
    assert Set(pre, d[i].0, d[i].1) == d[..i + 1] by {
      SetSnoc(pre, d[i].0, d[i].1);
      PrefixSnoc(d, i);
    }
    assert lines[1..] == IsfLines(d)[i + 1..];
  }

  lemma PrefixSnoc(d: Dict, i: nat)
    requires i < |d|
    ensures d[..i] + [(d[i].0, d[i].1)] == d[..i + 1]
  {
    assert d[..i + 1] == d[..i] + [d[i]];
  }

  /** Setting a key that is absent appends its entry. */
  lemma {:induction false} SetSnoc(d: Dict, k: string, v: string)
    requires !HasKey(d, k)
    ensures Set(d, k, v) == d + [(k, v)]
    decreases |d|
  {
    if d != [] {
      KeysAt(d);
      KeysAt(d[1..]);
      assert d[0].0 != k;
      assert !HasKey(d[1..], k) by {
        forall j | 0 <= j < |d| - 1
          ensures Keys(d[1..])[j] != k
        {
          assert d[1..][j] == d[j + 1];
        }
      }
      SetSnoc(d[1..], k, v);
      assert Set(d, k, v) == [d[0]] + Set(d[1..], k, v);
      assert [d[0]] + (d[1..] + [(k, v)]) == d + [(k, v)];
    }
  }

  // ---------------------------------------------------------------------
  // create_config in the detector-parallel runner

  /** The file `create_config` writes, its lines, the name it returns and
      the directories afterwards. */
  datatype Config = Config(written: string, lines: seq<string>, returned: string, disk: Disk)

  /** The batch-tagged configuration name: `.txt` becomes `_batch<b>.txt`. */
  function BatchConfigName(newName: string, b: nat): string {
    ReplaceAll(newName, ".txt", "_batch" + NatToString(b) + ".txt")
  }

  /** Where the configuration is written: the batch-tagged name in the
      thread's workdir. */
  function ConfigPath(workdir: string, newName: string, b: nat): string {
    PathJoin(workdir, BatchConfigName(newName, b))
  }

  /** `create_config`, as written. `baseConfig` holds the lines of the file
      `find_file(args.config, path=args.workdir)` finds, or nothing when it
      finds none; `configName` is `args.config`. In order: the lookup
      (RuntimeError), the create-if-absent of the configuration's directory
      (OSError), the pair loop (IndexError on an odd list). The pairs set
      keys, template keys and values are stripped and fill only missing
      keys; the file goes to the workdir under the batch-tagged name, but
      the name returned is the untagged one. */
  function CreateConfigAsWritten(workdir: string, newName: string, b: nat, configArgs: seq<string>,
                                 configName: string, baseConfig: Option<seq<string>>, disk: Disk): (r: Result<Config>)
    ensures baseConfig.None? ==> r == Err(RuntimeError(configName))
    ensures baseConfig.Some? && MakeDir(disk, Dirname(ConfigPath(workdir, newName, b))).Err? ==>
      r == Err(OSError(Dirname(ConfigPath(workdir, newName, b))))
    ensures r.Ok? <==> baseConfig.Some? && MakeDir(disk, Dirname(ConfigPath(workdir, newName, b))).Ok? && |configArgs| % 2 == 0
    ensures r.Ok? ==> r.value.disk == MakeDir(disk, Dirname(ConfigPath(workdir, newName, b))).value
    ensures r.Ok? ==> r.value.written == ConfigPath(workdir, newName, b) && r.value.returned == newName
  {
    if baseConfig.None? then Err(RuntimeError(configName))
    else
      var path := ConfigPath(workdir, newName, b);
      var k := MakeDir(disk, Dirname(path));
      if k.Err? then Err(k.error)
      else
        ApplyPairsOkIff([], configArgs, 0, Bias);
        var pairs := ApplyPairs([], configArgs, 0, Bias);
        if pairs.Err? then Err(pairs.error)
        else
          var d := Fill(pairs.value, baseConfig.value, true);
          Ok(Config(path, IsfLines(d), newName, k.value))
  }

  /** For a name `<stem>.txt` the batch-tagged name is `<stem>_batch<b>.txt`. */
  lemma BatchConfigNameOfStem(stem: string, b: nat)
    requires '.' !in stem
    ensures BatchConfigName(stem + ".txt", b) == stem + "_batch" + NatToString(b) + ".txt"
  {
    OnlyAtEnd(stem, ".txt");
    ReplaceAllTrailing(stem, ".txt", "_batch" + NatToString(b) + ".txt");
  }

  /** For a name `<stem>.txt` the file written is tagged for the batch
      but the name handed to the ISF is not, so the ISF names a
      configuration that was not written. */
  lemma ConfigNameMismatch(workdir: string, stem: string, b: nat, configArgs: seq<string>,
                           configName: string, baseConfig: Option<seq<string>>, disk: Disk)
    requires '.' !in stem
    requires CreateConfigAsWritten(workdir, stem + ".txt", b, configArgs, configName, baseConfig, disk).Ok?
    ensures CreateConfigAsWritten(workdir, stem + ".txt", b, configArgs, configName, baseConfig, disk).value.written
      == PathJoin(workdir, stem + "_batch" + NatToString(b) + ".txt")
    ensures CreateConfigAsWritten(workdir, stem + ".txt", b, configArgs, configName, baseConfig, disk).value.returned == stem + ".txt"
    ensures stem + ".txt" != stem + "_batch" + NatToString(b) + ".txt"
  {
    var tagged := stem + "_batch" + NatToString(b) + ".txt";
    BatchConfigNameOfStem(stem, b);
    assert (stem + ".txt")[|stem|] != tagged[|stem|];
  }

  /** `create_config` as intended: it fails in the same places, and it
      returns the name of the file it wrote, relative to the workdir. */
  function CreateConfig(workdir: string, newName: string, b: nat, configArgs: seq<string>,
                        configName: string, baseConfig: Option<seq<string>>, disk: Disk): (r: Result<Config>)
    ensures baseConfig.None? ==> r == Err(RuntimeError(configName))
    ensures baseConfig.Some? && MakeDir(disk, Dirname(ConfigPath(workdir, newName, b))).Err? ==>
      r == Err(OSError(Dirname(ConfigPath(workdir, newName, b))))
    ensures r.Ok? <==> baseConfig.Some? && MakeDir(disk, Dirname(ConfigPath(workdir, newName, b))).Ok? && |configArgs| % 2 == 0
    ensures r.Ok? ==> r.value.disk == MakeDir(disk, Dirname(ConfigPath(workdir, newName, b))).value
    ensures r.Ok? ==> r.value.written == PathJoin(workdir, r.value.returned)
    ensures r.Ok? ==> r.value.returned == BatchConfigName(newName, b)
  {
    var c := CreateConfigAsWritten(workdir, newName, b, configArgs, configName, baseConfig, disk);
    if c.Err? then c
    else Ok(c.value.(returned := BatchConfigName(newName, b)))
  }

  /** In the configuration, pairs win over the template, and a template
      key is taken only from the first line that names it with a value. */
  lemma ConfigPrecedence(workdir: string, newName: string, b: nat, configArgs: seq<string>,
                         configName: string, template: seq<string>, disk: Disk, k: string)
    requires CreateConfig(workdir, newName, b, configArgs, configName, Some(template), disk).Ok?
    ensures ApplyPairs([], configArgs, 0, Bias).Ok?
    ensures var d := Fill(ApplyPairs([], configArgs, 0, Bias).value, template, true);
      CreateConfig(workdir, newName, b, configArgs, configName, Some(template), disk).value.lines == IsfLines(d)
      && Get(d, k) == if LastPairValue(configArgs, 0, k, Bias).Some? then LastPairValue(configArgs, 0, k, Bias)
                      else FirstLineValue(template, k, true)
  {
    ApplyPairsOkIff([], configArgs, 0, Bias);
    ApplyPairsLookup([], configArgs, 0, Bias, k);
    var p := ApplyPairs([], configArgs, 0, Bias).value;
    FillLookup(p, template, true, k);
  }
}
