/** How a thread's ISF is prepared: every entry of the key/value map that
    names an input port is looked up on a search path, symlinked into the
    thread's `data` directory and rewritten to point there, and the data
    files its product names are symlinked into the thread's workdir. The
    calibration runner, the bias runner and the detector-parallel runner
    each do this with small differences, selected by `Variant`.

    The library calls (`find_file`, `read_xml_product`, `read_listfile`,
    `open`) are tables in `Env`; the file system is the set of paths that
    exist plus the list of `remove`/`symlink` calls made. */
module InputPorts {
  import opened Wrappers
  import opened Strings
  import opened Paths
  import opened OrderedDict
  import opened IsfArgs
  import RunPipelineParallel

  // ---------------------------------------------------------------------
  // Environment and file system

  /** What `read_xml_product` returns: whether the product class has been
      initialised (has `get_all_filenames`), and the data files it names. */
  datatype Product = Product(initialised: bool, files: seq<string>)

  /** `found[(name, path)]` is what `find_file(name, path=path)` returns
      when it succeeds; `products`, `listfiles` and `texts` are the files
      `read_xml_product`, `read_listfile` and `open` can read; `cwd` is the
      process's current directory. */
  datatype Env = Env(
    found: map<(string, string), string>,
    products: map<string, Product>,
    listfiles: map<string, seq<string>>,
    texts: map<string, seq<string>>,
    cwd: string)

  /** `os.symlink(target, at)` and `os.remove(path)`. */
  datatype FsOp = Link(at: string, target: string) | Remove(path: string)

  /** The paths that exist and the calls made so far, oldest first. */
  datatype Fs = Fs(present: set<string>, ops: seq<FsOp>)

  /** `find_file(name, path=path)`: RuntimeError when it finds nothing. */
  function Locate(env: Env, name: string, path: string): Result<string> {
    if (name, path) in env.found then Ok(env.found[(name, path)]) else Err(RuntimeError(name))
  }

  /** `read_xml_product(path)`: a file that cannot be parsed raises. */
  function ReadProduct(env: Env, path: string): Result<Product> {
    if path in env.products then Ok(env.products[path]) else Err(ParseError(path))
  }

  /** `read_listfile(path)`. */
  function ReadListfile(env: Env, path: string): Result<seq<string>> {
    if path in env.listfiles then Ok(env.listfiles[path]) else Err(IOError(path))
  }

  /** The lines of `open(path)`. */
  function ReadLines(env: Env, path: string): Result<seq<string>> {
    if path in env.texts then Ok(env.texts[path]) else Err(IOError(path))
  }

  /** Where each path points once the calls `ops` have been made on top
      of the links in `m`: a symlink sets its path, a removal clears it. */
  function Replay(m: map<string, string>, ops: seq<FsOp>): map<string, string>
    decreases |ops|
  {
    if ops == [] then m
    else
      var before := Replay(m, ops[..|ops| - 1]);
      match ops[|ops| - 1]
      case Link(at, target) => before[at := target]
      case Remove(p) => before - {p}
  }

  /** Replaying a longer call list replays its prefix first. */
  lemma {:induction false} ReplayAppend(m: map<string, string>, ops: seq<FsOp>, more: seq<FsOp>)
    ensures Replay(m, ops + more) == Replay(Replay(m, ops), more)
    decreases |more|
  {
    if more == [] {
      assert ops + more == ops;
    } else {
      assert (ops + more)[..|ops + more| - 1] == ops + more[..|more| - 1];
      ReplayAppend(m, ops, more[..|more| - 1]);
    }
  }

  /** Remove `at` when it exists, then symlink it to `target`. */
  function ForceLink(fs: Fs, at: string, target: string): Fs {
    if at in fs.present then Fs(fs.present, fs.ops + [Remove(at), Link(at, target)])
    else Fs(fs.present + {at}, fs.ops + [Link(at, target)])
  }

  /** After a forced link, `at` points to `target` and nothing else changed. */
  lemma ForceLinkPoints(fs: Fs, at: string, target: string)
    ensures Replay(map[], ForceLink(fs, at, target).ops) == Replay(map[], fs.ops)[at := target]
  {
    var r := ForceLink(fs, at, target);
    var tail := r.ops[|fs.ops|..];
    assert fs.ops + tail == r.ops;
    ReplayAppend(map[], fs.ops, tail);
    var before := Replay(map[], fs.ops);
    if at in fs.present {
      assert tail == [Remove(at), Link(at, target)];
      assert tail[..1] == [Remove(at)];
      assert [Remove(at)][..0] == [];
      assert Replay(before, [Remove(at)]) == before - {at};
      assert Replay(before, tail) == (before - {at})[at := target];
      assert (before - {at})[at := target] == before[at := target];
    } else {
      assert tail == [Link(at, target)];
      assert tail[..0] == [];
    }
  }

  /** The input-port symlink: nothing when the file already is `at`;
      otherwise `symlink`, and on FileExistsError `remove` and `symlink`
      again. Afterwards `at` points to `target`. */
  function Relink(fs: Fs, at: string, target: string): (r: Fs)
    ensures target == at ==> r == fs
    ensures target != at ==> at in r.present && Replay(map[], r.ops) == Replay(map[], fs.ops)[at := target]
    ensures r.present == fs.present + (if target == at then {} else {at})
  {
    if target == at then fs
    else
      ForceLinkPoints(fs, at, target);
      ForceLink(fs, at, target)
  }

  /** The calibration runner's data-file symlink: nothing when the file
      found is already `at` up to `abspath`; otherwise remove `at` if it
      exists and symlink it. */
  function CalibLink(fs: Fs, at: string, target: string, cwd: string): (r: Fs)
    ensures AbsPath(target, cwd) == AbsPath(at, cwd) ==> r == fs
    ensures AbsPath(target, cwd) != AbsPath(at, cwd) ==>
      at in r.present && Replay(map[], r.ops) == Replay(map[], fs.ops)[at := target]
  {
    if AbsPath(target, cwd) == AbsPath(at, cwd) then fs
    else
      ForceLinkPoints(fs, at, target);
      ForceLink(fs, at, target)
  }

  /** The bias and detector-parallel runners' data-file symlink: remove
      `at` if it exists, then symlink it unless the file found is `at`
      itself (compared as text). */
  function BiasLink(fs: Fs, at: string, target: string): Fs {
    var cleared := if at in fs.present then Fs(fs.present - {at}, fs.ops + [Remove(at)]) else fs;
    if target == at then cleared else ForceLink(cleared, at, target)
  }

  /** A data file that `find_file` reports at its own link path, and that
      exists there, is removed by the bias runner and not linked again; the
      calibration runner leaves it in place. */
  lemma SelfTargetRemoved(fs: Fs, at: string, cwd: string)
    requires at in fs.present
    ensures BiasLink(fs, at, at) == Fs(fs.present - {at}, fs.ops + [Remove(at)])
    ensures at !in BiasLink(fs, at, at).present
    ensures at !in Replay(map[], BiasLink(fs, at, at).ops)
    ensures CalibLink(fs, at, at, cwd) == fs
  {
    ReplayAppend(map[], fs.ops, [Remove(at)]);
    assert Replay(Replay(map[], fs.ops), [Remove(at)]) == Replay(map[], fs.ops) - {at} by {
      assert [Remove(at)][..0] == [];
    }
  }

  /** Otherwise the bias runner's link ends with `at` pointing to the file
      found. */
  lemma BiasLinkPoints(fs: Fs, at: string, target: string)
    requires target != at
    ensures at in BiasLink(fs, at, target).present
    ensures Replay(map[], BiasLink(fs, at, target).ops)[at] == target
  {
    var cleared := if at in fs.present then Fs(fs.present - {at}, fs.ops + [Remove(at)]) else fs;
    ForceLinkPoints(cleared, at, target);
  }

  // ---------------------------------------------------------------------
  // Which entries are input ports

  /** The control keys that never name a file; the detector-parallel
      runner also counts `pipeline_config` among them. */
  function NonFilenameArgs(v: Variant): seq<string> {
    if v.Batched? then ["workdir", "logdir", "pkgRepository", "pipelineDir", "pipeline_config"]
    else ["workdir", "logdir", "pkgRepository", "pipelineDir"]
  }

  /** Whether the entry `key=value` is treated as an input port for
      simulation `simNo`. The calibration and bias runners also skip the
      simulation plan, and skip a value tagged for another simulation
      (`TEST-` without this simulation's number). */
  predicate IsPort(v: Variant, simNo: nat, key: string, value: string) {
    key !in NonFilenameArgs(v)
    && (v.Batched? || !Contains(key, "simulation_plan"))
    && value != "None"
    && (v.Batched? || Contains(value, "TEST-" + NatToString(simNo)) || !Contains(value, "TEST-"))
  }

  /** The name a port is rewritten to. */
  function PortName(value: string): string {
    PathJoin("data", Basename(value))
  }

  /** The value an entry holds after the port loop. */
  function PortedValue(v: Variant, simNo: nat, key: string, value: string): string {
    if IsPort(v, simNo, key, value) then PortName(value) else value
  }

  /** A port's rewritten name lies in the `data` directory and keeps the
      file name. */
  lemma PortNameInData(value: string)
    ensures PortName(value) == "data/" + Basename(value)
    ensures Basename(PortName(value)) == Basename(value)
  {
    JoinDataBasename(value);
    BasenameOfJoin("data", Basename(value));
  }

  /** A value tagged for a different simulation is skipped by the
      calibration and bias runners; the detector-parallel runner does not
      look at tags. */
  lemma OtherSimulationSkipped(v: Variant, simNo: nat, key: string, value: string)
    requires !v.Batched?
    requires Contains(value, "TEST-") && !Contains(value, "TEST-" + NatToString(simNo))
    ensures !IsPort(v, simNo, key, value)
  {
  }

  // ---------------------------------------------------------------------
  // Data files of a port's product

  /** The data files listed by the sub-products of a `.json` listfile, in
      order. */
  function SubProductFiles(env: Env, subs: seq<string>, searchPath: string): Result<seq<string>> {
    if subs == [] then Ok([])
    else
      var q :- Locate(env, subs[0], searchPath);
      var p :- ReadProduct(env, q);
      if !p.initialised then Err(AttributeError)
      else
        var rest :- SubProductFiles(env, subs[1..], searchPath);
        Ok(p.files + rest)
  }

  /** Prefix `acc` to a successful result. */
  function PrependOk(acc: seq<string>, r: Result<seq<string>>): Result<seq<string>> {
    if r.Ok? then Ok(acc + r.value) else r
  }

  /** The `for subfilename in subfilenames` loop. */
  method CollectSubProductFiles(env: Env, subs: seq<string>, searchPath: string) returns (r: Result<seq<string>>)
    ensures r == SubProductFiles(env, subs, searchPath)
  {
    var acc: seq<string> := [];
    var i := 0;
    assert subs[0..] == subs;
    assert SubProductFiles(env, subs, searchPath).Ok? ==> [] + SubProductFiles(env, subs, searchPath).value == SubProductFiles(env, subs, searchPath).value;
    while i < |subs|
      invariant 0 <= i <= |subs|
      invariant SubProductFiles(env, subs, searchPath) == PrependOk(acc, SubProductFiles(env, subs[i..], searchPath))
    {
      assert subs[i..][1..] == subs[i + 1..];
      var q := Locate(env, subs[i], searchPath);
      if q.Err? {
        return Err(q.error);
      }
      var p := ReadProduct(env, q.value);
      if p.Err? {
        return Err(p.error);
      }
      if !p.value.initialised {
        return Err(AttributeError);
      }
      var rest := SubProductFiles(env, subs[i + 1..], searchPath);
      assert rest.Ok? ==> acc + (p.value.files + rest.value) == (acc + p.value.files) + rest.value;
      acc := acc + p.value.files;
      i := i + 1;
    }
    assert subs[i..] == [];
    assert acc + [] == acc;
    return Ok(acc);
  }

  /** The data files of the product a port resolved to, or `None` when the
      runner skips this stage. The calibration runner reads `.xml` products
      and `.json` listfiles of products, and skips anything else; the other
      runners read `.xml` products only. An uninitialised product fails on
      `get_all_filenames` (AttributeError) in the calibration runner and is
      refused with NotImplementedError by the others. */
  function DataFilesOf(env: Env, v: Variant, q: string, searchPath: string): Result<Option<seq<string>>> {
    if v.Calibration? then
      if EndsWith(q, ".xml") then
        var p :- ReadProduct(env, q);
        if !p.initialised then Err(AttributeError) else Ok(Some(p.files))
      else if EndsWith(q, ".json") then
        var subs :- ReadListfile(env, q);
        var files :- SubProductFiles(env, subs, searchPath);
        Ok(Some(files))
      else Ok(None)
    else
      if !EndsWith(q, ".xml") then Ok(None)
      else
        var p :- ReadProduct(env, q);
        if !p.initialised then Err(NotImplementedError) else Ok(Some(p.files))
  }

  /** Where data files are looked for: the product's directory, its
      parent, the parent's `data` directory, then the port search path. */
  function DataSearchPath(q: string, searchPath: string): string {
    var dir := Dirname(q);
    dir + ":" + dir + "/..:" + dir + "/../data:" + searchPath
  }

  /** The calibration runner's data-file lookup: when the name is not
      found it tries again without its first `data/`. */
  function LocateData(env: Env, df: string, dsp: string): (r: Result<string>)
    ensures (df, dsp) in env.found ==> r == Ok(env.found[(df, dsp)])
    ensures (df, dsp) !in env.found ==>
      r == if (ReplaceFirst(df, "data/", ""), dsp) in env.found
           then Ok(env.found[(ReplaceFirst(df, "data/", ""), dsp)])
           else Err(RuntimeError(df))
  {
    match Locate(env, df, dsp)
    case Ok(q) => Ok(q)
    case Err(_) =>
      match Locate(env, ReplaceFirst(df, "data/", ""), dsp)
      case Ok(q) => Ok(q)
      case Err(_) => Err(RuntimeError(df))
  }

  /** One data file of a port. The calibration runner skips the names
      `None` and `data/None`. */
  function DataStep(env: Env, v: Variant, workdir: string, dsp: string, df: string, fs: Fs): Result<Fs> {
    if v.Calibration? then
      if df == "None" || df == "data/None" then Ok(fs)
      else
        var qdf :- LocateData(env, df, dsp);
        Ok(CalibLink(fs, PathJoin(workdir, df), qdf, env.cwd))
    else
      var qdf :- Locate(env, df, dsp);
      Ok(BiasLink(fs, PathJoin(workdir, df), qdf))
  }

  /** The `for data_filename in data_filenames` loop. */
  function DataLinks(env: Env, v: Variant, workdir: string, dsp: string, files: seq<string>, fs: Fs): Result<Fs> {
    if files == [] then Ok(fs)
    else
      var fs1 :- DataStep(env, v, workdir, dsp, files[0], fs);
      DataLinks(env, v, workdir, dsp, files[1..], fs1)
  }

  method LinkDataFiles(env: Env, v: Variant, workdir: string, dsp: string, files: seq<string>, fs: Fs) returns (r: Result<Fs>)
    ensures r == DataLinks(env, v, workdir, dsp, files, fs)
  {
    var cur := fs;
    var i := 0;
    while i < |files|
      invariant 0 <= i <= |files|
      invariant DataLinks(env, v, workdir, dsp, files, fs) == DataLinks(env, v, workdir, dsp, files[i..], cur)
    {
      assert files[i..][1..] == files[i + 1..];
      var step := DataStep(env, v, workdir, dsp, files[i], cur);
      if step.Err? {
        return Err(step.error);
      }
      cur := step.value;
      i := i + 1;
    }
    assert files[i..] == [];
    return Ok(cur);
  }

  /** In the calibration runner, a `None` name among the data files is
      never looked up and changes nothing. */
  lemma NoneDataFileSkipped(env: Env, workdir: string, dsp: string, rest: seq<string>, fs: Fs)
    ensures DataLinks(env, Calibration, workdir, dsp, ["None"] + rest, fs) == DataLinks(env, Calibration, workdir, dsp, rest, fs)
    ensures DataLinks(env, Calibration, workdir, dsp, ["data/None"] + rest, fs) == DataLinks(env, Calibration, workdir, dsp, rest, fs)
  {
    assert (["None"] + rest)[1..] == rest;
    assert (["data/None"] + rest)[1..] == rest;
  }

  /** A data file every lookup misses fails the whole loop, naming it. */
  lemma {:induction false} MissingDataFileFails(env: Env, v: Variant, workdir: string, dsp: string, files: seq<string>, fs: Fs, i: nat)
    requires i < |files| && !v.Calibration?
    requires (files[i], dsp) !in env.found
    ensures DataLinks(env, v, workdir, dsp, files, fs).Err?
    decreases i
  {
    if i > 0 {
      match DataStep(env, v, workdir, dsp, files[0], fs)
      case Err(_) =>
      case Ok(fs1) =>
        assert files[1..][i - 1] == files[i];
        MissingDataFileFails(env, v, workdir, dsp, files[1..], fs1, i - 1);
    }
  }

  // ---------------------------------------------------------------------
  // One port and the port loop

  /** The thread's settings for the port loop. */
  datatype Ctx = Ctx(v: Variant, workdir: string, searchPath: string, simNo: nat)

  /** The file work for the port `k=value`: find the file, symlink it as
      `data/<name>` in the workdir, and link the data files of its product
      (not for the calibration runner's `mdb`, not when there are none). */
  function PortFiles(env: Env, c: Ctx, k: string, value: string, fs: Fs): (r: Result<Fs>)
    ensures (value, c.searchPath) !in env.found ==> r == Err(RuntimeError(value))
  {
    var q :- Locate(env, value, c.searchPath);
    var fs1 := Relink(fs, PathJoin(c.workdir, PortName(value)), q);
    if c.v.Calibration? && k == "mdb" then Ok(fs1)
    else
      var files :- DataFilesOf(env, c.v, q, c.searchPath);
      if files.None? || files.value == [] then Ok(fs1)
      else DataLinks(env, c.v, c.workdir, DataSearchPath(q, c.searchPath), files.value, fs1)
  }

  /** Everything the loop does for key `k`: skip it, or do the file work
      and rewrite the entry to the linked name. */
  function PortStep(env: Env, c: Ctx, d: Dict, k: string, fs: Fs): (r: Result<(Dict, Fs)>)
    requires HasKey(d, k)
    ensures r.Ok? ==> Keys(r.value.0) == Keys(d)
    ensures r.Ok? ==> Get(r.value.0, k) == Some(PortedValue(c.v, c.simNo, k, Get(d, k).value))
    ensures r.Ok? ==> forall k' :: k' != k ==> Get(r.value.0, k') == Get(d, k')
    ensures !IsPort(c.v, c.simNo, k, Get(d, k).value) ==> r == Ok((d, fs))
    ensures IsPort(c.v, c.simNo, k, Get(d, k).value) && (Get(d, k).value, c.searchPath) !in env.found ==>
      r == Err(RuntimeError(Get(d, k).value))
  {
    var value := Get(d, k).value;
    if !IsPort(c.v, c.simNo, k, value) then Ok((d, fs))
    else
      var fs' :- PortFiles(env, c, k, value, fs);
      Ok((Set(d, k, PortName(value)), fs'))
  }

  method RewritePort(env: Env, c: Ctx, d: Dict, k: string, fs: Fs) returns (r: Result<(Dict, Fs)>)
    requires HasKey(d, k)
    ensures r == PortStep(env, c, d, k, fs)
  {
    var value := Get(d, k).value;
    if !IsPort(c.v, c.simNo, k, value) {
      return Ok((d, fs));
    }
    var linked := LinkPortFiles(env, c, k, value, fs);
    if linked.Err? {
      return Err(linked.error);
    }
    return Ok((Set(d, k, PortName(value)), linked.value));
  }

  /** The file work of one port, as the loop body does it. */
  method LinkPortFiles(env: Env, c: Ctx, k: string, value: string, fs: Fs) returns (r: Result<Fs>)
    ensures r == PortFiles(env, c, k, value, fs)
  {
    var q := Locate(env, value, c.searchPath);
    if q.Err? {
      return Err(q.error);
    }
    var fs1 := Relink(fs, PathJoin(c.workdir, PortName(value)), q.value);
    if c.v.Calibration? && k == "mdb" {
      return Ok(fs1);
    }
    var files := ReadDataFiles(env, c.v, q.value, c.searchPath);
    if files.Err? {
      return Err(files.error);
    }
    if files.value.None? || files.value.value == [] {
      return Ok(fs1);
    }
    r := LinkDataFiles(env, c.v, c.workdir, DataSearchPath(q.value, c.searchPath), files.value.value, fs1);
  }

  /** The data files of the product `q`; the calibration runner's
      listfile case gathers its sub-products' files in a loop. */
  method ReadDataFiles(env: Env, v: Variant, q: string, searchPath: string) returns (r: Result<Option<seq<string>>>)
    ensures r == DataFilesOf(env, v, q, searchPath)
  {
    if v.Calibration? && !EndsWith(q, ".xml") && EndsWith(q, ".json") {
      var subs := ReadListfile(env, q);
      if subs.Err? {
        return Err(subs.error);
      }
      var collected := CollectSubProductFiles(env, subs.value, searchPath);
      if collected.Err? {
        return Err(collected.error);
      }
      return Ok(Some(collected.value));
    }
    return DataFilesOf(env, v, q, searchPath);
  }

  /** The `for input_port_name in args_to_set` loop from position `i` of
      the keys taken at its start. */
  function Ports(env: Env, c: Ctx, d: Dict, keys: seq<string>, i: nat, fs: Fs): (r: Result<(Dict, Fs)>)
    requires i <= |keys|
    requires forall j :: i <= j < |keys| ==> HasKey(d, keys[j])
    ensures r.Ok? ==> Keys(r.value.0) == Keys(d)
    decreases |keys| - i
  {
    if i == |keys| then Ok((d, fs))
    else
      match PortStep(env, c, d, keys[i], fs)
      case Err(e) => Err(e)
      case Ok(step) =>
        assert forall j :: i < j < |keys| ==> HasKey(step.0, keys[j]) by {
          forall j | i < j < |keys| ensures HasKey(step.0, keys[j]) {
            assert HasKey(d, keys[j]);
            assert Keys(step.0) == Keys(d);
          }
        }
        Ports(env, c, step.0, keys, i + 1, step.1)
  }

  method RewritePorts(env: Env, c: Ctx, d: Dict, fs: Fs) returns (r: Result<(Dict, Fs)>)
    ensures r == Ports(env, c, d, Keys(d), 0, fs)
  {
    var keys := Keys(d);
    var cur := d;
    var curFs := fs;
    var i := 0;
    while i < |keys|
      invariant 0 <= i <= |keys|
      invariant Keys(cur) == keys
      invariant Ports(env, c, d, keys, 0, fs) == Ports(env, c, cur, keys, i, curFs)
    {
      assert HasKey(cur, keys[i]);
      var step := RewritePort(env, c, cur, keys[i], curFs);
      if step.Err? {
        return Err(step.error);
      }
      cur, curFs := step.value.0, step.value.1;
      i := i + 1;
    }
    return Ok((cur, curFs));
  }

  /** A key the loop has not reached yet keeps its value through the
      rest of the loop. */
  lemma {:induction false} PortsLeaveOthers(env: Env, c: Ctx, d: Dict, keys: seq<string>, i: nat, fs: Fs, k: string)
    requires i <= |keys|
    requires forall j :: i <= j < |keys| ==> HasKey(d, keys[j])
    requires Ports(env, c, d, keys, i, fs).Ok?
    requires forall j :: i <= j < |keys| ==> keys[j] != k
    ensures Get(Ports(env, c, d, keys, i, fs).value.0, k) == Get(d, k)
    decreases |keys| - i
  {
    if i < |keys| {
      var step := PortStep(env, c, d, keys[i], fs).value;
      assert forall j :: i < j < |keys| ==> HasKey(step.0, keys[j]) by {
        forall j | i < j < |keys| ensures HasKey(step.0, keys[j]) {
          assert HasKey(d, keys[j]);
        }
      }
      assert Ports(env, c, d, keys, i, fs) == Ports(env, c, step.0, keys, i + 1, step.1);
      PortsLeaveOthers(env, c, step.0, keys, i + 1, step.1, k);
    }
  }

  /** The port loop leaves every key it visits holding `PortedValue` of
      its value before the loop: each key is visited once, and rewriting
      one entry does not touch the others. */
  lemma {:induction false} PortsValues(env: Env, c: Ctx, d: Dict, keys: seq<string>, i: nat, fs: Fs, j: nat)
    requires i <= j < |keys|
    requires forall l :: i <= l < |keys| ==> HasKey(d, keys[l])
    requires forall l, m :: i <= l < m < |keys| ==> keys[l] != keys[m]
    requires Ports(env, c, d, keys, i, fs).Ok?
    ensures Get(Ports(env, c, d, keys, i, fs).value.0, keys[j])
         == Some(PortedValue(c.v, c.simNo, keys[j], Get(d, keys[j]).value))
    decreases |keys| - i
  {
    var step := PortStep(env, c, d, keys[i], fs).value;
    assert forall l :: i < l < |keys| ==> HasKey(step.0, keys[l]) by {
      forall l | i < l < |keys| ensures HasKey(step.0, keys[l]) {
        assert HasKey(d, keys[l]);
      }
    }
    assert Ports(env, c, d, keys, i, fs) == Ports(env, c, step.0, keys, i + 1, step.1);
    if j == i {
      PortsLeaveOthers(env, c, step.0, keys, i + 1, step.1, keys[i]);
    } else {
      PortsValues(env, c, step.0, keys, i + 1, step.1, j);
      assert Get(step.0, keys[j]) == Get(d, keys[j]);
    }
  }

  /** On a well-formed map the whole loop leaves each entry ported. */
  lemma PortedEntries(env: Env, c: Ctx, d: Dict, fs: Fs, k: string)
    requires Valid(d) && HasKey(d, k)
    requires Ports(env, c, d, Keys(d), 0, fs).Ok?
    ensures Keys(Ports(env, c, d, Keys(d), 0, fs).value.0) == Keys(d)
    ensures Get(Ports(env, c, d, Keys(d), 0, fs).value.0, k) == Some(PortedValue(c.v, c.simNo, k, Get(d, k).value))
  {
    KeysAt(d);
    var keys := Keys(d);
    var j :| 0 <= j < |keys| && keys[j] == k;
    assert forall l, m :: 0 <= l < m < |keys| ==> keys[l] != keys[m];
    PortsValues(env, c, d, keys, 0, fs, j);
  }

  /** The calibration runner links the MDB itself but none of its data
      files. */
  lemma MdbHasNoDataLinks(env: Env, c: Ctx, d: Dict, fs: Fs)
    requires c.v.Calibration? && HasKey(d, "mdb")
    requires IsPort(c.v, c.simNo, "mdb", Get(d, "mdb").value)
    requires (Get(d, "mdb").value, c.searchPath) in env.found
    ensures PortStep(env, c, d, "mdb", fs).Ok?
    ensures PortStep(env, c, d, "mdb", fs).value.1
         == Relink(fs, PathJoin(c.workdir, PortName(Get(d, "mdb").value)), env.found[(Get(d, "mdb").value, c.searchPath)])
  {
  }

  /** The bias and detector-parallel runners link only the port itself
      when the file found is not an `.xml` product. */
  lemma NonXmlHasNoDataLinks(env: Env, c: Ctx, d: Dict, k: string, fs: Fs)
    requires !c.v.Calibration? && HasKey(d, k)
    requires IsPort(c.v, c.simNo, k, Get(d, k).value)
    requires (Get(d, k).value, c.searchPath) in env.found
    requires !EndsWith(env.found[(Get(d, k).value, c.searchPath)], ".xml")
    ensures PortStep(env, c, d, k, fs)
         == Ok((Set(d, k, PortName(Get(d, k).value)),
                Relink(fs, PathJoin(c.workdir, PortName(Get(d, k).value)), env.found[(Get(d, k).value, c.searchPath)])))
  {
  }

  /** An uninitialised product stops the loop: with NotImplementedError in
      the bias and detector-parallel runners, with AttributeError in the
      calibration runner (unless it is the MDB). */
  lemma UninitialisedProductFails(env: Env, c: Ctx, d: Dict, k: string, fs: Fs)
    requires HasKey(d, k) && IsPort(c.v, c.simNo, k, Get(d, k).value)
    requires (Get(d, k).value, c.searchPath) in env.found
    requires !(c.v.Calibration? && k == "mdb")
    requires EndsWith(env.found[(Get(d, k).value, c.searchPath)], ".xml")
    requires env.found[(Get(d, k).value, c.searchPath)] in env.products
    requires !env.products[env.found[(Get(d, k).value, c.searchPath)]].initialised
    ensures PortStep(env, c, d, k, fs) == Err(if c.v.Calibration? then AttributeError else NotImplementedError)
  {
  }

  // ---------------------------------------------------------------------
  // Building a thread's ISF

  /** The calibration and bias runners' command-line settings for one
      simulation; `newIsfName` is the name `get_allowed_filename` makes
      and `pipelineDir` is `get_pipeline_dir()`. */
  datatype Args = Args(
    isf: string, rootWorkdir: string, isfArgs: seq<string>, simConfigList: string,
    pipelineDir: string, newIsfName: string)

  /** A thread's directories. */
  datatype ThreadDirs = ThreadDirs(workdir: string, logdir: string)

  /** The ISF written, where it is written, the file system afterwards,
      and the simulation inputs returned. */
  datatype Prepared = Prepared(isfPath: string, isf: seq<string>, fs: Fs, inputs: seq<string>)

  /** The simulation inputs, in the order of the returned tuple. */
  function BiasInputKeys(): seq<string> {
    ["simulation_config", "bfd_training_data", "ksb_training_data", "lensmc_training_data",
     "momentsml_training_data", "regauss_training_data", "pipeline_config"]
  }

  /** The calibration runner's tuple adds the MDB. */
  function CalibInputKeys(): seq<string> {
    BiasInputKeys() + ["mdb"]
  }

  /** `args_to_set[k]` for each key in turn; KeyError at the first one
      missing. */
  function LookupAll(d: Dict, ks: seq<string>): (r: Result<seq<string>>)
    ensures r.Ok? ==> |r.value| == |ks| && forall i :: 0 <= i < |ks| ==> Get(d, ks[i]) == Some(r.value[i])
    ensures r.Err? ==> exists i :: 0 <= i < |ks| && !HasKey(d, ks[i]) && r.error == KeyError(ks[i])
  {
    if ks == [] then Ok([])
    else if !HasKey(d, ks[0]) then Err(KeyError(ks[0]))
    else
      var rest :- LookupAll(d, ks[1..]);
      assert forall i :: 1 <= i < |ks| ==> ks[i] == ks[1..][i - 1];
      Ok([Get(d, ks[0]).value] + rest)
  }

  /** The map before the port loop: seeded, the command-line pairs, the
      base ISF's lines, and this simulation's configuration last. */
  function MapBeforePorts(env: Env, a: Args, t: ThreadDirs, v: Variant, configFilename: string, simNo: nat): (r: Result<Dict>)
    requires !v.Batched?
    ensures r.Ok? ==> Valid(r.value)
    ensures r.Ok? ==> PathJoin(a.rootWorkdir, a.simConfigList) in env.listfiles
    ensures r.Ok? ==> simNo < |env.listfiles[PathJoin(a.rootWorkdir, a.simConfigList)]|
    ensures r.Ok? ==> Get(r.value, "simulation_config") == Some(env.listfiles[PathJoin(a.rootWorkdir, a.simConfigList)][simNo])
    ensures Locate(env, a.isf, a.rootWorkdir).Err? ==> r == Err(RuntimeError(a.isf))
    ensures Locate(env, a.isf, a.rootWorkdir).Ok? && |a.isfArgs| % 2 == 1 ==> r == Err(IndexError)
  {
    var baseIsf :- Locate(env, a.isf, a.rootWorkdir);
    var seed := Seed(t.workdir, t.logdir, a.pipelineDir, configFilename);
    ApplyPairsOkIff(seed, a.isfArgs, 0, v);
    ApplyPairsError(seed, a.isfArgs, 0, v);
    var d1 :- ApplyPairs(seed, a.isfArgs, 0, v);
    var lines :- ReadLines(env, baseIsf);
    ApplyPairsKeys(seed, a.isfArgs, 0, v);
    FillKeys(d1, lines, false);
    var d2 := Fill(d1, lines, false);
    var configs :- ReadListfile(env, PathJoin(a.rootWorkdir, a.simConfigList));
    if simNo >= |configs| then Err(IndexError)
    else
      SetValid(d2, "simulation_config", configs[simNo]);
      Ok(Set(d2, "simulation_config", configs[simNo]))
  }

  /** `create_simulate_measure_inputs` of the calibration and bias
      runners. Both search the root workdir for ports. The bias runner
      collects its inputs before the port loop (original names); the
      calibration runner after it (rewritten names), and adds the MDB. */
  function SimulateMeasureInputs(env: Env, a: Args, t: ThreadDirs, v: Variant, configFilename: string, simNo: nat, fs: Fs): (r: Result<Prepared>)
    requires !v.Batched?
    ensures r.Ok? ==> r.value.isfPath == PathJoin(t.workdir, a.newIsfName)
    ensures r.Ok? ==> |r.value.inputs| == if v.Bias? then 7 else 8
  {
    var d :- MapBeforePorts(env, a, t, v, configFilename, simNo);
    PortAndCollect(env, Ctx(v, t.workdir, a.rootWorkdir, simNo), d, PathJoin(t.workdir, a.newIsfName), fs)
  }

  /** The second half: the port loop, the ISF written from the rewritten
      map, and the inputs looked up before (bias) or after (calibration)
      the loop. */
  function PortAndCollect(env: Env, c: Ctx, d: Dict, isfPath: string, fs: Fs): (r: Result<Prepared>)
    requires !c.v.Batched?
    ensures r.Ok? ==> r.value.isfPath == isfPath
    ensures r.Ok? ==> |r.value.inputs| == if c.v.Bias? then 7 else 8
  {
    if c.v.Bias? then
      var inputs :- LookupAll(d, BiasInputKeys());
      var ported :- Ports(env, c, d, Keys(d), 0, fs);
      Ok(Prepared(isfPath, IsfLines(ported.0), ported.1, inputs))
    else
      var ported :- Ports(env, c, d, Keys(d), 0, fs);
      var inputs :- LookupAll(ported.0, CalibInputKeys());
      Ok(Prepared(isfPath, IsfLines(ported.0), ported.1, inputs))
  }

  /** The bias runner returns each input as it stood before the port loop
      (so the threads see the root workdir's names, not `data/...`), while
      its ISF holds the rewritten entry. */
  lemma BiasInputsUnported(env: Env, a: Args, t: ThreadDirs, configFilename: string, simNo: nat, fs: Fs, i: nat)
    requires i < 7
    requires SimulateMeasureInputs(env, a, t, Bias, configFilename, simNo, fs).Ok?
    ensures MapBeforePorts(env, a, t, Bias, configFilename, simNo).Ok?
    ensures Get(MapBeforePorts(env, a, t, Bias, configFilename, simNo).value, BiasInputKeys()[i])
         == Some(SimulateMeasureInputs(env, a, t, Bias, configFilename, simNo, fs).value.inputs[i])
  {
    var d := MapBeforePorts(env, a, t, Bias, configFilename, simNo).value;
    var c := Ctx(Bias, t.workdir, a.rootWorkdir, simNo);
    assert SimulateMeasureInputs(env, a, t, Bias, configFilename, simNo, fs)
        == PortAndCollect(env, c, d, PathJoin(t.workdir, a.newIsfName), fs);
    BiasLooksUpFirst(env, c, d, PathJoin(t.workdir, a.newIsfName), fs, i);
  }

  lemma BiasLooksUpFirst(env: Env, c: Ctx, d: Dict, isfPath: string, fs: Fs, i: nat)
    requires i < 7 && c.v.Bias?
    requires PortAndCollect(env, c, d, isfPath, fs).Ok?
    ensures Get(d, BiasInputKeys()[i]) == Some(PortAndCollect(env, c, d, isfPath, fs).value.inputs[i])
  {
  }

  /** The calibration runner returns each input as the port loop left it. */
  lemma CalibInputsPorted(env: Env, a: Args, t: ThreadDirs, configFilename: string, simNo: nat, fs: Fs, i: nat)
    requires i < 8
    requires SimulateMeasureInputs(env, a, t, Calibration, configFilename, simNo, fs).Ok?
    ensures MapBeforePorts(env, a, t, Calibration, configFilename, simNo).Ok?
    ensures var d := MapBeforePorts(env, a, t, Calibration, configFilename, simNo).value;
            HasKey(d, CalibInputKeys()[i]) &&
            SimulateMeasureInputs(env, a, t, Calibration, configFilename, simNo, fs).value.inputs[i]
            == PortedValue(Calibration, simNo, CalibInputKeys()[i], Get(d, CalibInputKeys()[i]).value)
  {
    var d := MapBeforePorts(env, a, t, Calibration, configFilename, simNo).value;
    var c := Ctx(Calibration, t.workdir, a.rootWorkdir, simNo);
    assert SimulateMeasureInputs(env, a, t, Calibration, configFilename, simNo, fs)
        == PortAndCollect(env, c, d, PathJoin(t.workdir, a.newIsfName), fs);
    CalibLooksUpAfter(env, c, d, PathJoin(t.workdir, a.newIsfName), fs, i);
  }

  lemma CalibLooksUpAfter(env: Env, c: Ctx, d: Dict, isfPath: string, fs: Fs, i: nat)
    requires i < 8 && c.v.Calibration? && Valid(d)
    requires PortAndCollect(env, c, d, isfPath, fs).Ok?
    ensures HasKey(d, CalibInputKeys()[i])
    ensures PortAndCollect(env, c, d, isfPath, fs).value.inputs[i]
            == PortedValue(Calibration, c.simNo, CalibInputKeys()[i], Get(d, CalibInputKeys()[i]).value)
  {
    var ported := Ports(env, c, d, Keys(d), 0, fs).value;
    var k := CalibInputKeys()[i];
    assert Get(ported.0, k).Some?;
    assert HasKey(d, k);
    PortedEntries(env, c, d, fs, k);
  }

  /** The first half of `create_simulate_measure_inputs`: building the
      map up to the port loop. */
  method BuildMapBeforePorts(env: Env, a: Args, t: ThreadDirs, v: Variant, configFilename: string, simNo: nat)
    returns (r: Result<Dict>)
    requires !v.Batched?
    ensures r == MapBeforePorts(env, a, t, v, configFilename, simNo)
  {
    var baseIsf := Locate(env, a.isf, a.rootWorkdir);
    if baseIsf.Err? {
      return Err(baseIsf.error);
    }
    var seed := Seed(t.workdir, t.logdir, a.pipelineDir, configFilename);
    var d1 := ApplyIsfArgs(seed, a.isfArgs, v);
    if d1.Err? {
      return Err(d1.error);
    }
    var lines := ReadLines(env, baseIsf.value);
    if lines.Err? {
      return Err(lines.error);
    }
    var d2 := ReadTemplate(d1.value, lines.value, false);
    var configs := ReadListfile(env, PathJoin(a.rootWorkdir, a.simConfigList));
    if configs.Err? {
      return Err(configs.error);
    }
    if simNo >= |configs.value| {
      return Err(IndexError);
    }
    return Ok(Set(d2, "simulation_config", configs.value[simNo]));
  }

  method CreateSimulateMeasureInputs(env: Env, a: Args, t: ThreadDirs, v: Variant, configFilename: string, simNo: nat, fs: Fs)
    returns (r: Result<Prepared>)
    requires !v.Batched?
    ensures r == SimulateMeasureInputs(env, a, t, v, configFilename, simNo, fs)
  {
    var m := BuildMapBeforePorts(env, a, t, v, configFilename, simNo);
    if m.Err? {
      return Err(m.error);
    }
    r := RunPortsAndCollect(env, Ctx(v, t.workdir, a.rootWorkdir, simNo), m.value, PathJoin(t.workdir, a.newIsfName), fs);
  }

  /** The port loop, the ISF write and the input lookups. */
  method RunPortsAndCollect(env: Env, c: Ctx, d: Dict, isfPath: string, fs: Fs) returns (r: Result<Prepared>)
    requires !c.v.Batched?
    ensures r == PortAndCollect(env, c, d, isfPath, fs)
  {
    var inputs: seq<string> := [];
    if c.v.Bias? {
      var early := LookupAll(d, BiasInputKeys());
      if early.Err? {
        return Err(early.error);
      }
      inputs := early.value;
    }
    var ported := RewritePorts(env, c, d, fs);
    if ported.Err? {
      return Err(ported.error);
    }
    var isf := WriteIsf(ported.value.0);
    if c.v.Calibration? {
      var late := LookupAll(ported.value.0, CalibInputKeys());
      if late.Err? {
        return Err(late.error);
      }
      inputs := late.value;
    }
    return Ok(Prepared(isfPath, isf, ported.value.1, inputs));
  }

  /** `create_isf` of the detector-parallel runner for batch `b`: the
      pairs' path values carry the batch tag, ports are searched in the
      map's `workdir`, then the current directory, then the root, and the
      ISF's own name carries the tag. Nothing is returned but the path. */
  function BatchIsf(env: Env, a: Args, t: ThreadDirs, b: nat, configFilename: string, fs: Fs): (r: Result<Prepared>)
    ensures r.Ok? ==> r.value.isfPath == PathJoin(t.workdir, RunPipelineParallel.ConvertToBatchFilename(a.newIsfName, b))
    ensures r.Ok? ==> r.value.inputs == []
  {
    var d :- BatchMap(env, a, t, b, configFilename);
    var c := Ctx(Batched(b), t.workdir, SearchPathOf(d, env.cwd), 0);
    var ported :- Ports(env, c, d, Keys(d), 0, fs);
    Ok(Prepared(PathJoin(t.workdir, RunPipelineParallel.ConvertToBatchFilename(a.newIsfName, b)),
                IsfLines(ported.0), ported.1, []))
  }

  /** The detector-parallel runner's map before the port loop: seeded,
      the batch-tagged pairs, then the base ISF's lines. */
  function BatchMap(env: Env, a: Args, t: ThreadDirs, b: nat, configFilename: string): (r: Result<Dict>)
    ensures r.Ok? ==> Valid(r.value)
    ensures Locate(env, a.isf, a.rootWorkdir).Err? ==> r == Err(RuntimeError(a.isf))
    ensures Locate(env, a.isf, a.rootWorkdir).Ok? && |a.isfArgs| % 2 == 1 ==> r == Err(IndexError)
  {
    var baseIsf :- Locate(env, a.isf, a.rootWorkdir);
    var seed := Seed(t.workdir, t.logdir, a.pipelineDir, configFilename);
    ApplyPairsOkIff(seed, a.isfArgs, 0, Batched(b));
    ApplyPairsError(seed, a.isfArgs, 0, Batched(b));
    var d1 :- ApplyPairs(seed, a.isfArgs, 0, Batched(b));
    var lines :- ReadLines(env, baseIsf);
    ApplyPairsKeys(seed, a.isfArgs, 0, Batched(b));
    FillKeys(d1, lines, false);
    Ok(Fill(d1, lines, false))
  }

  method BuildBatchMap(env: Env, a: Args, t: ThreadDirs, b: nat, configFilename: string) returns (r: Result<Dict>)
    ensures r == BatchMap(env, a, t, b, configFilename)
  {
    var baseIsf := Locate(env, a.isf, a.rootWorkdir);
    if baseIsf.Err? {
      return Err(baseIsf.error);
    }
    var seed := Seed(t.workdir, t.logdir, a.pipelineDir, configFilename);
    var d1 := ApplyIsfArgs(seed, a.isfArgs, Batched(b));
    if d1.Err? {
      return Err(d1.error);
    }
    var lines := ReadLines(env, baseIsf.value);
    if lines.Err? {
      return Err(lines.error);
    }
    var d2 := ReadTemplate(d1.value, lines.value, false);
    return Ok(d2);
  }

  /** `workdir + ":" + abspath(curdir) + ":"`, with `workdir` read back
      from the map. */
  function SearchPathOf(d: Dict, cwd: string): string {
    match Get(d, "workdir")
    case Some(w) => w + ":" + cwd + ":"
    case None => ":" + cwd + ":"
  }

  /** A `workdir` pair on the command line redirects the detector-parallel
      runner's port search; without one the thread's workdir is searched. */
  lemma BatchSearchPathFollowsPairs(env: Env, a: Args, t: ThreadDirs, b: nat, configFilename: string)
    requires BatchMap(env, a, t, b, configFilename).Ok?
    ensures SearchPathOf(BatchMap(env, a, t, b, configFilename).value, env.cwd)
            == (match LastPairValue(a.isfArgs, 0, "workdir", Batched(b))
                case Some(x) => x
                case None => t.workdir) + ":" + env.cwd + ":"
  {
    var seed := Seed(t.workdir, t.logdir, a.pipelineDir, configFilename);
    var d1 := ApplyPairs(seed, a.isfArgs, 0, Batched(b)).value;
    var lines := ReadLines(env, Locate(env, a.isf, a.rootWorkdir).value).value;
    assert BatchMap(env, a, t, b, configFilename).value == Fill(d1, lines, false);
    var w := match LastPairValue(a.isfArgs, 0, "workdir", Batched(b)) case Some(x) => x case None => t.workdir;
    assert Get(d1, "workdir") == Some(w) by {
      ApplyPairsLookup(seed, a.isfArgs, 0, Batched(b), "workdir");
    }
    assert Get(Fill(d1, lines, false), "workdir") == Some(w) by {
      FillLookup(d1, lines, false, "workdir");
    }
  }

  method CreateIsf(env: Env, a: Args, t: ThreadDirs, b: nat, configFilename: string, fs: Fs) returns (r: Result<Prepared>)
    ensures r == BatchIsf(env, a, t, b, configFilename, fs)
  {
    var m := BuildBatchMap(env, a, t, b, configFilename);
    if m.Err? {
      return Err(m.error);
    }
    var d2 := m.value;
    var c := Ctx(Batched(b), t.workdir, SearchPathOf(d2, env.cwd), 0);
    var ported := RewritePorts(env, c, d2, fs);
    if ported.Err? {
      return Err(ported.error);
    }
    var isf := WriteIsf(ported.value.0);
    return Ok(Prepared(PathJoin(t.workdir, RunPipelineParallel.ConvertToBatchFilename(a.newIsfName, b)),
                       isf, ported.value.1, []));
  }
}
