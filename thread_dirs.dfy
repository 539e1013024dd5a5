/** `create_thread_dir_struct`: the per-worker directory layout the parallel
    runners build before any simulation starts. For every root it makes the
    root, `cache` and `data`; then, for each worker `t`, it makes
    `<root>/thread<t>` with its own `cache`, `data` and log directory, and
    records the worker's directories in a `Directories` tuple.

    The file system is the set of directories that exist plus the set of
    paths `os.mkdir` cannot create; `chmod` for cluster runs is not part of
    this model. */
module ThreadDirStruct {
  import opened Wrappers
  import opened Strings
  import opened Paths

  /** The `Directories` named tuple. With one root its last two fields are
      `None`; with two roots they hold the second root's directories. */
  datatype DirStruct = DirStruct(workdir: string, logdir: string, appWorkdir: Option<string>, appLogdir: Option<string>)

  /** The directories that exist, and the paths whose `os.mkdir` fails. */
  datatype Disk = Disk(dirs: set<string>, failing: set<string>)

  function Elems(ps: seq<string>): set<string> {
    set p | p in ps
  }

  // ---------------------------------------------------------------------
  // Create-if-absent

  /** `if not os.path.exists(p): os.mkdir(p)`, re-raising a failure. */
  function MakeDir(k: Disk, p: string): (r: Result<Disk>)
    ensures r.Ok? <==> p in k.dirs || p !in k.failing
    ensures r.Ok? ==> r.value == k.(dirs := k.dirs + {p})
    ensures r.Err? ==> r.error == OSError(p)
  {
    if p in k.dirs then Ok(k)
    else if p in k.failing then Err(OSError(p))
    else Ok(k.(dirs := k.dirs + {p}))
  }

  /** The same for a list of paths, in order, stopping at the first failure. */
  function MakeDirs(k: Disk, ps: seq<string>): Result<Disk> {
    if ps == [] then Ok(k)
    else
      var k1 :- MakeDirs(k, ps[..|ps| - 1]);
      MakeDir(k1, ps[|ps| - 1])
  }

  /** Making a list of directories succeeds exactly when none of them is
      both absent and impossible to create, and then adds exactly them. */
  lemma {:induction false} MakeDirsSpec(k: Disk, ps: seq<string>)
    ensures MakeDirs(k, ps).Ok? <==> forall p :: p in ps ==> p in k.dirs || p !in k.failing
    ensures MakeDirs(k, ps).Ok? ==> MakeDirs(k, ps).value == k.(dirs := k.dirs + Elems(ps))
  {
    if ps != [] {
      var init := ps[..|ps| - 1];
      var last := ps[|ps| - 1];
      MakeDirsSpec(k, init);
      assert ps == init + [last];
      assert Elems(ps) == Elems(init) + {last};
      if MakeDirs(k, init).Ok? && last in Elems(init) {
        assert last in MakeDirs(k, init).value.dirs;
      }
    }
  }

  /** Making the concatenation of two lists makes the first, then the second. */
  lemma {:induction false} MakeDirsAppend(k: Disk, a: seq<string>, b: seq<string>)
    ensures MakeDirs(k, a + b) == (match MakeDirs(k, a) case Ok(k1) => MakeDirs(k1, b) case Err(e) => Err(e))
  {
    if b == [] {
      assert a + b == a;
    } else {
      assert (a + b)[..|a + b| - 1] == a + b[..|b| - 1];
      assert (a + b)[|a + b| - 1] == b[|b| - 1];
      MakeDirsAppend(k, a, b[..|b| - 1]);
    }
  }

  /** Directories that all exist already are left alone. */
  lemma MakeDirsExisting(k: Disk, ps: seq<string>)
    requires forall p :: p in ps ==> p in k.dirs
    ensures MakeDirs(k, ps) == Ok(k)
  {
    MakeDirsSpec(k, ps);
    assert k.dirs + Elems(ps) == k.dirs;
  }

  // ---------------------------------------------------------------------
  // The layout

  /** `os.path.join(root, 'thread%s' % t)`. */
  function ThreadDir(root: string, t: nat): string {
    PathJoin(root, "thread" + NatToString(t))
  }

  /** A root and its `cache` and `data` directories. */
  function RootPaths(root: string): seq<string> {
    [root, PathJoin(root, "cache"), PathJoin(root, "data")]
  }

  /** The directories made for each root in turn, `f(root)` for each. */
  function PerRoot(roots: seq<string>, f: string -> seq<string>): seq<string> {
    if roots == [] then [] else PerRoot(roots[..|roots| - 1], f) + f(roots[|roots| - 1])
  }

  /** The directories made for the roots before any worker's. */
  function BasePaths(roots: seq<string>): seq<string> {
    PerRoot(roots, RootPaths)
  }

  /** A worker's directory under one root, with `cache`, `data` and its log
      directory. */
  function WorkerPaths(root: string, logdir: string, t: nat): seq<string> {
    var w := ThreadDir(root, t);
    [w, PathJoin(w, "cache"), PathJoin(w, "data"), PathJoin(w, logdir)]
  }

  function WorkerPathsOf(logdir: string, t: nat): string -> seq<string> {
    root => WorkerPaths(root, logdir, t)
  }

  /** The directories made for worker `t`, root by root. */
  function ThreadPaths(roots: seq<string>, logdir: string, t: nat): seq<string> {
    PerRoot(roots, WorkerPathsOf(logdir, t))
  }

  /** `Directories(*thread_dir_list)`: the tuple takes exactly four values,
      so any number of roots other than one or two is a TypeError. */
  function MakeStruct(roots: seq<string>, logdir: string, t: nat): (r: Result<DirStruct>)
    ensures r.Ok? <==> |roots| == 1 || |roots| == 2
  {
    if |roots| == 1 then
      Ok(DirStruct(ThreadDir(roots[0], t), PathJoin(ThreadDir(roots[0], t), logdir), None, None))
    else if |roots| == 2 then
      Ok(DirStruct(ThreadDir(roots[0], t), PathJoin(ThreadDir(roots[0], t), logdir),
                   Some(ThreadDir(roots[1], t)), Some(PathJoin(ThreadDir(roots[1], t), logdir))))
    else Err(TypeError)
  }

  /** The worker loop, for any rule giving worker `t`'s directories and its
      tuple: make the directories, then build the tuple. */
  function WorkersWith(k: Disk, n: nat, paths: nat -> seq<string>, mk: nat -> Result<DirStruct>): Result<(seq<DirStruct>, Disk)> {
    if n == 0 then Ok(([], k))
    else
      var p :- WorkersWith(k, n - 1, paths, mk);
      var k1 :- MakeDirs(p.1, paths(n - 1));
      var s :- mk(n - 1);
      Ok((p.0 + [s], k1))
  }

  /** Every directory the first `n` workers make, in creation order. */
  function AllPaths(paths: nat -> seq<string>, n: nat): seq<string> {
    if n == 0 then [] else AllPaths(paths, n - 1) + paths(n - 1)
  }

  function ThreadPathsOf(roots: seq<string>, logdir: string): nat -> seq<string> {
    (t: nat) => ThreadPaths(roots, logdir, t)
  }

  function StructOf(roots: seq<string>, logdir: string): nat -> Result<DirStruct> {
    (t: nat) => MakeStruct(roots, logdir, t)
  }

  /** The worker loop of `create_thread_dir_struct`. */
  function Workers(roots: seq<string>, logdir: string, k: Disk, n: nat): Result<(seq<DirStruct>, Disk)> {
    WorkersWith(k, n, ThreadPathsOf(roots, logdir), StructOf(roots, logdir))
  }

  /** Every directory made for the first `n` workers, in creation order. */
  function AllThreadPaths(roots: seq<string>, logdir: string, n: nat): seq<string> {
    AllPaths(ThreadPathsOf(roots, logdir), n)
  }

  /** `create_thread_dir_struct(args, roots, n)` with `args.logdir == logdir`. */
  function CreateThreadDirStruct(roots: seq<string>, logdir: string, n: nat, k: Disk): Result<(seq<DirStruct>, Disk)> {
    var k1 :- MakeDirs(k, BasePaths(roots));
    Workers(roots, logdir, k1, n)
  }

  // ---------------------------------------------------------------------
  // The nested loops

  /** The loop over the roots: `f(root)` made for each root in turn. */
  method MakePerRoot(k: Disk, roots: seq<string>, f: string -> seq<string>) returns (r: Result<Disk>)
    ensures r == MakeDirs(k, PerRoot(roots, f))
  {
    var cur := k;
    var i := 0;
    while i < |roots|
      invariant i <= |roots|
      invariant MakeDirs(k, PerRoot(roots[..i], f)) == Ok(cur)
    {
      assert roots[..i + 1][..i] == roots[..i];
      MakeDirsAppend(k, PerRoot(roots[..i], f), f(roots[i]));
      var step := MakeEach(cur, f(roots[i]));
      if step.Err? {
        PerRootErrorStays(k, roots, f, i + 1);
        return step;
      }
      cur := step.value;
      i := i + 1;
    }
    assert roots[..i] == roots;
    r := Ok(cur);
  }

  /** Once a prefix of the roots fails, the whole list fails the same way. */
  lemma {:induction false} PerRootErrorStays(k: Disk, roots: seq<string>, f: string -> seq<string>, i: nat)
    requires i <= |roots| && MakeDirs(k, PerRoot(roots[..i], f)).Err?
    ensures MakeDirs(k, PerRoot(roots, f)) == MakeDirs(k, PerRoot(roots[..i], f))
    decreases |roots| - i
  {
    if i < |roots| {
      assert roots[..i + 1][..i] == roots[..i];
      MakeDirsAppend(k, PerRoot(roots[..i], f), f(roots[i]));
      PerRootErrorStays(k, roots, f, i + 1);
    } else {
      assert roots[..i] == roots;
    }
  }

  /** Consecutive create-if-absent steps, as the loop bodies write them. */
  method MakeEach(k: Disk, ps: seq<string>) returns (r: Result<Disk>)
    ensures r == MakeDirs(k, ps)
  {
    var cur := k;
    var i := 0;
    while i < |ps|
      invariant i <= |ps|
      invariant MakeDirs(k, ps[..i]) == Ok(cur)
    {
      assert ps[..i + 1][..i] == ps[..i];
      var step := MakeDir(cur, ps[i]);
      if step.Err? {
        MakeDirsPrefixError(k, ps, i + 1);
        return step;
      }
      cur := step.value;
      i := i + 1;
    }
    assert ps[..i] == ps;
    r := Ok(cur);
  }

  lemma {:induction false} MakeDirsPrefixError(k: Disk, ps: seq<string>, i: nat)
    requires i <= |ps| && MakeDirs(k, ps[..i]).Err?
    ensures MakeDirs(k, ps) == MakeDirs(k, ps[..i])
  {
    MakeDirsAppend(k, ps[..i], ps[i..]);
    assert ps[..i] + ps[i..] == ps;
  }

  /** `create_thread_dir_struct`: the loop over the roots, then the loop over
      the workers, each building its tuple after its directories. */
  method CreateThreadDirs(roots: seq<string>, logdir: string, n: nat, k: Disk) returns (r: Result<(seq<DirStruct>, Disk)>)
    ensures r == CreateThreadDirStruct(roots, logdir, n, k)
  {
    var base := MakePerRoot(k, roots, RootPaths);
    if base.Err? {
      return Err(base.error);
    }
    var list: seq<DirStruct> := [];
    var cur := base.value;
    var t := 0;
    while t < n
      invariant t <= n
      invariant Workers(roots, logdir, base.value, t) == Ok((list, cur))
    {
      var step := MakePerRoot(cur, roots, WorkerPathsOf(logdir, t));
      if step.Err? {
        WorkersErrorStays(base.value, t + 1, n, ThreadPathsOf(roots, logdir), StructOf(roots, logdir));
        return Err(step.error);
      }
      var s := MakeStruct(roots, logdir, t);
      if s.Err? {
        WorkersErrorStays(base.value, t + 1, n, ThreadPathsOf(roots, logdir), StructOf(roots, logdir));
        return Err(s.error);
      }
      list := list + [s.value];
      cur := step.value;
      t := t + 1;
    }
    r := Ok((list, cur));
  }

  /** A failure at some worker is the result of the whole loop. */
  lemma {:induction false} WorkersErrorStays(k: Disk, t: nat, n: nat, paths: nat -> seq<string>, mk: nat -> Result<DirStruct>)
    requires t <= n && WorkersWith(k, t, paths, mk).Err?
    ensures WorkersWith(k, n, paths, mk) == WorkersWith(k, t, paths, mk)
    decreases n - t
  {
    if t < n {
      WorkersErrorStays(k, t + 1, n, paths, mk);
    }
  }

  // ---------------------------------------------------------------------
  // What the layout promises

  /** One tuple per worker, in worker order, each built by the rule for its
      worker. */
  lemma {:induction false} WorkersShape(k: Disk, n: nat, paths: nat -> seq<string>, mk: nat -> Result<DirStruct>)
    requires WorkersWith(k, n, paths, mk).Ok?
    ensures |WorkersWith(k, n, paths, mk).value.0| == n
    ensures forall i :: 0 <= i < n ==> mk(i).Ok? && WorkersWith(k, n, paths, mk).value.0[i] == mk(i).value
  {
    if n > 0 {
      WorkersShape(k, n - 1, paths, mk);
    }
  }

  /** `create_thread_dir_struct` returns one entry per worker: entry `i`'s
      workdir is `<root>/thread<i>` under the first root and its logdir lies
      inside it; with a single root the second pair of fields is `None`. */
  lemma ThreadEntries(roots: seq<string>, logdir: string, n: nat, k: Disk, i: nat)
    requires CreateThreadDirStruct(roots, logdir, n, k).Ok? && i < n
    ensures |CreateThreadDirStruct(roots, logdir, n, k).value.0| == n
    ensures |roots| == 1 || |roots| == 2
    ensures CreateThreadDirStruct(roots, logdir, n, k).value.0[i].workdir == ThreadDir(roots[0], i)
    ensures CreateThreadDirStruct(roots, logdir, n, k).value.0[i].logdir == PathJoin(ThreadDir(roots[0], i), logdir)
    ensures |roots| == 1 ==> CreateThreadDirStruct(roots, logdir, n, k).value.0[i].appWorkdir.None?
    ensures |roots| == 1 ==> CreateThreadDirStruct(roots, logdir, n, k).value.0[i].appLogdir.None?
    ensures |roots| == 2 ==> CreateThreadDirStruct(roots, logdir, n, k).value.0[i].appWorkdir == Some(ThreadDir(roots[1], i))
  {
    WorkersShape(MakeDirs(k, BasePaths(roots)).value, n, ThreadPathsOf(roots, logdir), StructOf(roots, logdir));
    assert StructOf(roots, logdir)(i) == MakeStruct(roots, logdir, i);
  }

  /** The worker loop succeeds exactly when every worker's tuple can be built
      and no directory it needs is both absent and impossible to create; it
      then adds exactly those directories. */
  lemma {:induction false} WorkersDisk(k: Disk, n: nat, paths: nat -> seq<string>, mk: nat -> Result<DirStruct>)
    ensures WorkersWith(k, n, paths, mk).Ok? <==>
      (forall i :: 0 <= i < n ==> mk(i).Ok?) &&
      forall p :: p in AllPaths(paths, n) ==> p in k.dirs || p !in k.failing
    ensures WorkersWith(k, n, paths, mk).Ok? ==>
      WorkersWith(k, n, paths, mk).value.1 == k.(dirs := k.dirs + Elems(AllPaths(paths, n)))
  {
    if n > 0 {
      var before := AllPaths(paths, n - 1);
      var now := paths(n - 1);
      assert Elems(before + now) == Elems(before) + Elems(now);
      WorkersDisk(k, n - 1, paths, mk);
      var p := WorkersWith(k, n - 1, paths, mk);
      if p.Ok? {
        MakeDirsSpec(p.value.1, now);
      } else if forall q :: q in before + now ==> q in k.dirs || q !in k.failing {
        assert forall q :: q in before ==> q in before + now;
      }
    }
  }

  /** The worker tuples do not depend on which directories already existed. */
  lemma {:induction false} WorkersListFixed(k1: Disk, k2: Disk, n: nat, paths: nat -> seq<string>, mk: nat -> Result<DirStruct>)
    requires WorkersWith(k1, n, paths, mk).Ok? && WorkersWith(k2, n, paths, mk).Ok?
    ensures WorkersWith(k1, n, paths, mk).value.0 == WorkersWith(k2, n, paths, mk).value.0
  {
    if n > 0 {
      WorkersListFixed(k1, k2, n - 1, paths, mk);
    }
  }

  /** Every worker's tuple can be built exactly when there is one root or two
      (or there is no worker). */
  lemma StructsOkIff(roots: seq<string>, logdir: string, n: nat)
    ensures (forall i :: 0 <= i < n ==> StructOf(roots, logdir)(i).Ok?) <==> (n == 0 || |roots| == 1 || |roots| == 2)
  {
    if n > 0 {
      assert StructOf(roots, logdir)(0) == MakeStruct(roots, logdir, 0);
    }
  }

  /** `create_thread_dir_struct` succeeds exactly when every directory it
      needs exists or can be made (and the roots fit the tuple when there is
      a worker), and it then adds exactly those directories. */
  lemma CreatesOnlyWhatIsMissing(roots: seq<string>, logdir: string, n: nat, k: Disk)
    ensures CreateThreadDirStruct(roots, logdir, n, k).Ok? <==>
      (n == 0 || |roots| == 1 || |roots| == 2) &&
      forall p :: p in BasePaths(roots) + AllThreadPaths(roots, logdir, n) ==> p in k.dirs || p !in k.failing
    ensures CreateThreadDirStruct(roots, logdir, n, k).Ok? ==>
      CreateThreadDirStruct(roots, logdir, n, k).value.1 ==
        k.(dirs := k.dirs + Elems(BasePaths(roots) + AllThreadPaths(roots, logdir, n)))
  {
    var base := BasePaths(roots);
    var all := AllThreadPaths(roots, logdir, n);
    var mk := StructOf(roots, logdir);
    MakeDirsSpec(k, base);
    assert Elems(base + all) == Elems(base) + Elems(all);
    if MakeDirs(k, base).Ok? {
      var k1 := MakeDirs(k, base).value;
      WorkersDisk(k1, n, ThreadPathsOf(roots, logdir), mk);
      StructsOkIff(roots, logdir, n);
    }
    assert forall p :: p in base + all <==> p in base || p in all;
  }

  /** A second call on the directories the first left behind creates
      nothing and returns the same list. */
  lemma SecondCallChangesNothing(roots: seq<string>, logdir: string, n: nat, k: Disk)
    requires CreateThreadDirStruct(roots, logdir, n, k).Ok?
    ensures CreateThreadDirStruct(roots, logdir, n, CreateThreadDirStruct(roots, logdir, n, k).value.1)
         == CreateThreadDirStruct(roots, logdir, n, k)
  {
    var r := CreateThreadDirStruct(roots, logdir, n, k).value;
    var base := BasePaths(roots);
    var all := AllThreadPaths(roots, logdir, n);
    var paths, mk := ThreadPathsOf(roots, logdir), StructOf(roots, logdir);
    CreatesOnlyWhatIsMissing(roots, logdir, n, k);
    assert forall p :: p in base ==> p in base + all;
    MakeDirsExisting(r.1, base);
    var k1 := MakeDirs(k, base).value;
    WorkersDisk(k1, n, paths, mk);
    WorkersDisk(r.1, n, paths, mk);
    assert Elems(all) <= r.1.dirs by {
      assert forall p :: p in all ==> p in base + all;
    }
    assert r.1.dirs + Elems(all) == r.1.dirs;
    WorkersListFixed(k1, r.1, n, paths, mk);
  }
}
