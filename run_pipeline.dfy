/** `run_pipeline.py`: the ISF written for a single pipeline run, and the
    location of the pipeline packages.

    The base ISF is read as Python iterates over a text file: a sequence of
    lines, each still carrying its line break. The new ISF's file name comes
    from `get_allowed_filename`, which is a parameter here. */
module RunPipeline {
  import opened Wrappers
  import opened Seqs
  import opened Strings
  import opened Paths

  // ---------------------------------------------------------------------
  // get_pipeline_dir

  /** `module_name.replace(".", "/") + ".py"`: the module's file relative to
      the package root. */
  function ModuleFile(moduleName: string): string {
    ReplaceAll(moduleName, ".", "/") + ".py"
  }

  /** `get_pipeline_dir()`: this module's file name with `/<module file>`
      removed wherever it occurs. */
  function GetPipelineDir(file: string, moduleName: string): string {
    ReplaceAll(file, "/" + ModuleFile(moduleName), "")
  }

  /** A dotted module name `a.b.c` lives in the file `a/b/c.py`. */
  lemma ModuleFileOfDotted(parts: seq<string>)
    requires |parts| >= 1
    requires forall k :: 0 <= k < |parts| ==> '.' !in parts[k]
    ensures ModuleFile(Join(parts, ".")) == Join(parts, "/") + ".py"
  {
    ReplaceCharJoin(parts, '.', '/');
  }

  /** A module installed as `<dir>/a/b/c.py`, where that tail does not also
      occur earlier, reports `<dir>` as the pipeline directory. */
  lemma PipelineDirOfInstall(dir: string, parts: seq<string>)
    requires |parts| >= 1
    requires forall k :: 0 <= k < |parts| ==> '.' !in parts[k]
    requires OnlyAtTheEnd(dir, "/" + Join(parts, "/") + ".py")
    ensures GetPipelineDir(dir + ("/" + Join(parts, "/") + ".py"), Join(parts, ".")) == dir
  {
    var tail := "/" + Join(parts, "/") + ".py";
    ModuleFileOfDotted(parts);
    assert "/" + ModuleFile(Join(parts, ".")) == tail;
    RemoveTrailing(dir, tail);
  }

  /** `pat` occurs in `d + pat` only at the end. */
  predicate OnlyAtTheEnd(d: string, pat: string) {
    forall k :: 0 <= k < |d| ==> !OccursAt(d + pat, pat, k)
  }

  lemma RemoveTrailing(d: string, pat: string)
    requires |pat| > 0 && OnlyAtTheEnd(d, pat)
    ensures ReplaceAll(d + pat, pat, "") == d
  {
    ReplaceAllTrailing(d, pat, "");
    assert d + "" == d;
  }

  /** `os.path.join(get_pipeline_dir(), "SHE_Pipeline_pkgdef/" + pipeline + ".py")`. */
  function PipelineFile(pkgDir: string, pipeline: string): string {
    PathJoin(pkgDir, "SHE_Pipeline_pkgdef/" + pipeline + ".py")
  }

  /** The package definition of a pipeline sits under
      `<pipeline dir>/SHE_Pipeline_pkgdef/`. */
  lemma PipelineFileUnder(pkgDir: string, pipeline: string)
    requires pkgDir != "" && !EndsWith(pkgDir, "/")
    ensures PipelineFile(pkgDir, pipeline) == pkgDir + "/SHE_Pipeline_pkgdef/" + pipeline + ".py"
  {
    var b := "SHE_Pipeline_pkgdef/" + pipeline + ".py";
    assert b[0] == 'S';
    assert !StartsWith(b, "/");
    RegroupPkgdef(pkgDir, pipeline);
  }

  lemma RegroupPkgdef(pkgDir: string, pipeline: string)
    ensures pkgDir + "/" + ("SHE_Pipeline_pkgdef/" + pipeline + ".py") ==
      pkgDir + "/SHE_Pipeline_pkgdef/" + pipeline + ".py"
  {
  }

  // ---------------------------------------------------------------------
  // create_isf

  /** Python's `s[0:n]`: the slice stops at the end of a shorter string. */
  function Head(s: string, n: nat): (r: string)
    ensures |r| == if n <= |s| then n else |s|
    ensures r <= s
  {
    if n <= |s| then s[..n] else s
  }

  /** A base-ISF line that sets a value the run writes itself; only the
      first characters are compared. */
  predicate Overridden(line: string) {
    Head(line, 7) == "workdir" || Head(line, 6) == "logdir" ||
    Head(line, 13) == "pkgRepository" || Head(line, 11) == "pipelineDir"
  }

  predicate NotOverridden(line: string) {
    !Overridden(line)
  }

  lemma HeadIs(s: string, p: string)
    ensures Head(s, |p|) == p <==> StartsWith(s, p)
  {
  }

  /** The comparison of the first 7, 6, 13 and 11 characters is exactly a
      prefix test for the four keys. */
  lemma OverriddenIff(line: string)
    ensures Overridden(line) <==>
      StartsWith(line, "workdir") || StartsWith(line, "logdir") ||
      StartsWith(line, "pkgRepository") || StartsWith(line, "pipelineDir")
  {
    HeadIs(line, "workdir");
    HeadIs(line, "logdir");
    HeadIs(line, "pkgRepository");
    HeadIs(line, "pipelineDir");
  }

  /** Lines such as `workdirX=...` are dropped too: only the prefix counts. */
  lemma PrefixOnly(rest: string)
    ensures Overridden("workdir" + rest) && Overridden("logdir" + rest)
    ensures Overridden("pkgRepository" + rest) && Overridden("pipelineDir" + rest)
  {
    OverriddenIff("workdir" + rest);
    OverriddenIff("logdir" + rest);
    OverriddenIff("pkgRepository" + rest);
    OverriddenIff("pipelineDir" + rest);
  }

  /** What the run needs of its arguments. */
  datatype RunArgs = RunArgs(workdir: string, logdir: string, pipeline: string)

  /** The four assignments written after the copied lines. */
  function Assignments(a: RunArgs, pkgDir: string): seq<string> {
    ["workdir=" + a.workdir, "logdir=" + a.logdir, "pkgRepository=" + pkgDir,
     "pipelineDir=" + PipelineFile(pkgDir, a.pipeline)]
  }

  /** Each item as a line of its own. */
  function Terminated(xs: seq<string>): (r: seq<string>)
    ensures |r| == |xs|
    ensures forall i :: 0 <= i < |xs| ==> r[i] == xs[i] + "\n"
  {
    MapSeq(AddBreak, xs)
  }

  function AddBreak(x: string): string {
    x + "\n"
  }

  /** The text `create_isf` writes as the code stands: the kept lines, then
      the four assignments with nothing between them. */
  function IsfTextAsWritten(lines: seq<string>, a: RunArgs, pkgDir: string): string {
    Flatten(Filter(NotOverridden, lines)) + Flatten(Assignments(a, pkgDir))
  }

  /** The text as evidently meant: the kept lines, then each assignment on
      a line of its own. */
  function IsfText(lines: seq<string>, a: RunArgs, pkgDir: string): string {
    Flatten(Filter(NotOverridden, lines)) + Flatten(Terminated(Assignments(a, pkgDir)))
  }

  /** `create_isf(args)`, writing each assignment on its own line. The base
      ISF `isf` is what `find_file` finds (`baseIsf`, None when it is not
      found: RuntimeError). Returns the new ISF's path in the workdir and
      the text written there. */
  method CreateIsf(isf: string, baseIsf: Option<seq<string>>, a: RunArgs, pkgDir: string, newIsfName: string)
    returns (r: Result<(string, string)>)
    ensures baseIsf.None? ==> r == Err(RuntimeError(isf))
    ensures baseIsf.Some? ==> r == Ok((PathJoin(a.workdir, newIsfName), IsfText(baseIsf.value, a, pkgDir)))
  {
    if baseIsf.None? {
      return Err(RuntimeError(isf));
    }
    var lines := baseIsf.value;
    var isfPath := PathJoin(a.workdir, newIsfName);
    var text := "";
    var i := 0;
    while i < |lines|
      invariant 0 <= i <= |lines|
      invariant text == Flatten(Filter(NotOverridden, lines[..i]))
    {
      FlattenFilterStep(NotOverridden, lines, i);
      if !Overridden(lines[i]) {
        text := text + lines[i];
      }
      i := i + 1;
    }
    assert lines[..i] == lines;
    ghost var kept := text;
    text := text + ("workdir=" + a.workdir + "\n");
    text := text + ("logdir=" + a.logdir + "\n");
    text := text + ("pkgRepository=" + pkgDir + "\n");
    text := text + ("pipelineDir=" + PipelineFile(pkgDir, a.pipeline) + "\n");
    AssignmentLines(a, pkgDir);
    AppendFour(kept, "workdir=" + a.workdir + "\n", "logdir=" + a.logdir + "\n",
      "pkgRepository=" + pkgDir + "\n", "pipelineDir=" + PipelineFile(pkgDir, a.pipeline) + "\n");
    r := Ok((isfPath, text));
  }

  /** The four assignment lines, written one after the other. */
  lemma AssignmentLines(a: RunArgs, pkgDir: string)
    ensures Flatten(Terminated(Assignments(a, pkgDir))) ==
      ("workdir=" + a.workdir + "\n") + ("logdir=" + a.logdir + "\n") +
      ("pkgRepository=" + pkgDir + "\n") + ("pipelineDir=" + PipelineFile(pkgDir, a.pipeline) + "\n")
  {
    FlattenFour(Terminated(Assignments(a, pkgDir)));
  }

  lemma AppendFour<T>(t: seq<T>, w: seq<T>, x: seq<T>, y: seq<T>, z: seq<T>)
    ensures t + w + x + y + z == t + (w + x + y + z)
  {
  }

  // ---------------------------------------------------------------------
  // The lines of the written ISF

  /** Lines without a line break inside. */
  predicate SingleLines(xs: seq<string>) {
    forall k :: 0 <= k < |xs| ==> '\n' !in xs[k]
  }

  /** Every argument free of line breaks. */
  predicate PlainArgs(a: RunArgs, pkgDir: string) {
    '\n' !in a.workdir && '\n' !in a.logdir && '\n' !in a.pipeline && '\n' !in pkgDir
  }

  lemma AssignmentsSingle(a: RunArgs, pkgDir: string)
    requires PlainArgs(a, pkgDir)
    ensures SingleLines(Assignments(a, pkgDir))
  {
    var b := "SHE_Pipeline_pkgdef/" + a.pipeline + ".py";
    assert '\n' !in b;
    NoBreakInPathJoin(pkgDir, b);
  }

  lemma NoBreakInPathJoin(a: string, b: string)
    requires '\n' !in a && '\n' !in b
    ensures '\n' !in PathJoin(a, b)
  {
  }

  /** A key with no line break is a prefix of a line whether or not the
      line break is still attached. */
  lemma PrefixTerminated(b: string, p: string)
    requires '\n' !in p
    ensures StartsWith(b + "\n", p) <==> StartsWith(b, p)
  {
    var s := b + "\n";
    assert s[|b|] == '\n';
    assert forall k :: 0 <= k < |p| ==> p[k] != '\n';
    if p <= s && |p| > |b| {
      assert false;
    }
    if p <= s && |p| <= |b| {
      assert p == s[..|p|] == b[..|p|];
    }
  }

  lemma OverriddenTerminated(b: string)
    ensures Overridden(b + "\n") <==> Overridden(b)
  {
    OverriddenIff(b);
    OverriddenIff(b + "\n");
    PrefixTerminated(b, "workdir");
    PrefixTerminated(b, "logdir");
    PrefixTerminated(b, "pkgRepository");
    PrefixTerminated(b, "pipelineDir");
  }

  /** Filtering lines is filtering their bodies. */
  lemma FilterTerminated(bodies: seq<string>)
    ensures Filter(NotOverridden, Terminated(bodies)) == Terminated(Filter(NotOverridden, bodies))
  {
    forall x: string
      ensures NotOverridden(AddBreak(x)) == NotOverridden(x)
    {
      OverriddenTerminated(x);
    }
    FilterMapSeq(NotOverridden, AddBreak, bodies);
  }

  /** Lines written one after the other read back as a join ending in an
      empty piece. */
  lemma {:induction false} FlattenTerminated(xs: seq<string>)
    ensures Flatten(Terminated(xs)) == Join(xs + [""], "\n")
  {
    if xs != [] {
      var h, t := xs[0], xs[1..];
      assert xs == [h] + t;
      assert Terminated(xs)[1..] == Terminated(t);
      FlattenTerminated(t);
      JoinCons(h, t + [""], "\n");
      assert [h] + (t + [""]) == xs + [""];
    }
  }

  lemma JoinThenTail(xs: seq<string>, tail: string)
    ensures Join(xs + [""], "\n") + tail == Join(xs + [tail], "\n")
  {
    if xs == [] {
      assert [] + [""] == [""] && [] + [tail] == [tail];
    } else {
      JoinSnoc(xs, "", "\n");
      JoinSnoc(xs, tail, "\n");
    }
  }

  lemma TerminatedAppend(a: seq<string>, b: seq<string>)
    ensures Terminated(a + b) == Terminated(a) + Terminated(b)
  {
  }

  /** Kept lines are lines of the base ISF. */
  lemma KeptSingle(bodies: seq<string>)
    requires SingleLines(bodies)
    ensures SingleLines(Filter(NotOverridden, bodies))
  {
    var kept := Filter(NotOverridden, bodies);
    FilterMembers(NotOverridden, bodies);
    forall k | 0 <= k < |kept|
      ensures '\n' !in kept[k]
    {
      assert kept[k] in kept;
      var j :| 0 <= j < |bodies| && bodies[j] == kept[k];
    }
  }

  lemma SingleConcat(x: seq<string>, y: seq<string>)
    requires SingleLines(x) && SingleLines(y)
    ensures SingleLines(x + y)
  {
    forall k | 0 <= k < |x + y|
      ensures '\n' !in (x + y)[k]
    {
      if k >= |x| {
        assert (x + y)[k] == y[k - |x|];
      }
    }
  }

  /** The ISF text as the pieces a split on line breaks recovers. */
  lemma IsfTextJoined(bodies: seq<string>, a: RunArgs, pkgDir: string)
    ensures IsfText(Terminated(bodies), a, pkgDir) == Join(Filter(NotOverridden, bodies) + Assignments(a, pkgDir) + [""], "\n")
  {
    var kept := Filter(NotOverridden, bodies);
    var asg := Assignments(a, pkgDir);
    FilterTerminated(bodies);
    TerminatedAppend(kept, asg);
    FlattenAppend(Terminated(kept), Terminated(asg));
    FlattenTerminated(kept + asg);
  }

  /** With each assignment on its own line, the ISF holds the kept base
      lines, unchanged and in order, then the four assignments. */
  lemma IsfLines(bodies: seq<string>, a: RunArgs, pkgDir: string)
    requires SingleLines(bodies) && PlainArgs(a, pkgDir)
    ensures SplitOn(IsfText(Terminated(bodies), a, pkgDir), "\n") ==
      Filter(NotOverridden, bodies) + Assignments(a, pkgDir) + [""]
  {
    var kept := Filter(NotOverridden, bodies);
    var asg := Assignments(a, pkgDir);
    IsfTextJoined(bodies, a, pkgDir);
    KeptSingle(bodies);
    AssignmentsSingle(a, pkgDir);
    SingleConcat(kept, asg);
    assert SingleLines([""]);
    SingleConcat(kept + asg, [""]);
    SplitJoinChar(kept + asg + [""], '\n');
  }

  /** The four assignments as written form one line. */
  lemma LastLineSingle(a: RunArgs, pkgDir: string)
    requires PlainArgs(a, pkgDir)
    ensures SingleLines([Flatten(Assignments(a, pkgDir))])
  {
    var asg := Assignments(a, pkgDir);
    AssignmentsSingle(a, pkgDir);
    FlattenFour(asg);
    assert '\n' !in asg[0] + asg[1] + asg[2] + asg[3];
  }

  /** The as-written ISF text as the pieces a split on line breaks recovers. */
  lemma IsfTextAsWrittenJoined(bodies: seq<string>, a: RunArgs, pkgDir: string)
    ensures IsfTextAsWritten(Terminated(bodies), a, pkgDir) == Join(Filter(NotOverridden, bodies) + [Flatten(Assignments(a, pkgDir))], "\n")
  {
    var kept := Filter(NotOverridden, bodies);
    FilterTerminated(bodies);
    FlattenTerminated(kept);
    JoinThenTail(kept, Flatten(Assignments(a, pkgDir)));
  }

  /** As written, the four assignments run together on the last line: the
      ISF holds the kept base lines and then one line
      `workdir=...logdir=...pkgRepository=...pipelineDir=...`. */
  lemma IsfLinesAsWritten(bodies: seq<string>, a: RunArgs, pkgDir: string)
    requires SingleLines(bodies) && PlainArgs(a, pkgDir)
    ensures SplitOn(IsfTextAsWritten(Terminated(bodies), a, pkgDir), "\n") ==
      Filter(NotOverridden, bodies) + [Flatten(Assignments(a, pkgDir))]
  {
    var kept := Filter(NotOverridden, bodies);
    var last := [Flatten(Assignments(a, pkgDir))];
    IsfTextAsWrittenJoined(bodies, a, pkgDir);
    KeptSingle(bodies);
    LastLineSingle(a, pkgDir);
    SingleConcat(kept, last);
    SplitJoinChar(kept + last, '\n');
  }
}
