/** The parts of Python's `posixpath` that the pipeline code uses: `join`,
    `dirname`, `basename`, `abspath` and `relpath`.

    The current working directory is a parameter wherever `abspath` would
    consult the process state. */
module Paths {
  import opened Wrappers
  import opened Strings

  // ---------------------------------------------------------------------
  // join, dirname, basename

  /** `os.path.join(a, b)`: an absolute `b` replaces `a`; otherwise one `/`
      is inserted unless `a` is empty or already ends with one. */
  function PathJoin(a: string, b: string): (r: string)
    ensures StartsWith(b, "/") ==> r == b
    ensures !StartsWith(b, "/") ==> EndsWith(r, b)
  {
    if StartsWith(b, "/") then b
    else if a == "" || EndsWith(a, "/") then a + b
    else a + "/" + b
  }

  /** Index just past the last `/`, or 0 when there is none. */
  function NameStart(p: string): (i: nat)
    ensures i <= |p|
    ensures i > 0 ==> p[i - 1] == '/'
    ensures forall k :: i <= k < |p| ==> p[k] != '/'
    ensures i > 0 <==> '/' in p
  {
    if p == [] then 0
    else if p[|p| - 1] == '/' then |p|
    else NameStart(p[..|p| - 1])
  }

  /** `os.path.basename(p)`: the text after the last `/`. */
  function Basename(p: string): (r: string)
    ensures '/' !in r
    ensures EndsWith(p, r)
  {
    p[NameStart(p)..]
  }

  function RStripSlash(s: string): (r: string)
    ensures |r| <= |s| && r == s[..|r|]
    ensures forall k :: |r| <= k < |s| ==> s[k] == '/'
    ensures r != [] ==> r[|r| - 1] != '/'
  {
    if s != [] && s[|s| - 1] == '/' then RStripSlash(s[..|s| - 1]) else s
  }

  predicate AllSlashes(s: string) {
    forall k :: 0 <= k < |s| ==> s[k] == '/'
  }

  /** `os.path.dirname(p)` (equally `os.path.split(p)[0]`): everything up to
      the last `/`, with trailing slashes removed unless that part is made
      of slashes alone. */
  function Dirname(p: string): (r: string)
    ensures |r| <= |p| && r == p[..|r|]
  {
    var head := p[..NameStart(p)];
    if head != [] && !AllSlashes(head) then RStripSlash(head) else head
  }

  /** The directory part is non-empty exactly when the path contains a `/`. */
  lemma DirnameNonEmptyIff(p: string)
    ensures Dirname(p) != [] <==> '/' in p
  {
    var head := p[..NameStart(p)];
    if head != [] && !AllSlashes(head) {
      var k :| 0 <= k < |head| && head[k] != '/';
      assert k < |RStripSlash(head)|;
    }
  }

  /** After a `/`, a name without slashes is what `basename` returns. */
  lemma {:induction false} NameStartAfterSlash(x: string, name: string)
    requires x != [] && x[|x| - 1] == '/'
    requires '/' !in name
    ensures NameStart(x + name) == |x|
    decreases |name|
  {
    if name == [] {
      assert x + name == x;
    } else {
      var name' := name[..|name| - 1];
      assert (x + name)[..|x + name| - 1] == x + name';
      NameStartAfterSlash(x, name');
    }
  }

  /** A bare name joined under a directory is found again by `basename`. */
  lemma BasenameOfJoin(d: string, name: string)
    requires '/' !in name
    ensures Basename(PathJoin(d, name)) == name
  {
    assert !StartsWith(name, "/") by {
      if name != [] {
        assert name[0] in name;
      }
    }
    if d == "" {
      assert PathJoin(d, name) == name;
    } else if EndsWith(d, "/") {
      NameStartAfterSlash(d, name);
      assert (d + name)[|d|..] == name;
    } else {
      NameStartAfterSlash(d + "/", name);
      assert (d + "/" + name)[|d + "/"|..] == name;
    }
  }

  /** `os.path.join("data", basename(v))`, the name a port is rewritten to. */
  lemma JoinDataBasename(v: string)
    ensures PathJoin("data", Basename(v)) == "data/" + Basename(v)
  {
    var b := Basename(v);
    if b != [] {
      assert b[0] != '/';
    }
  }

  lemma StartsWithSlashIff(s: string)
    ensures StartsWith(s, "/") <==> s != "" && s[0] == '/'
  {
    if s != "" && s[0] == '/' {
      assert s[..1] == "/";
    }
  }

  lemma EndsWithSlashIff(s: string)
    ensures EndsWith(s, "/") <==> s != "" && s[|s| - 1] == '/'
  {
    if s != "" && s[|s| - 1] == '/' {
      assert s[|s| - 1..] == "/";
    }
  }

  /** `os.path.join(w, os.path.join(a, n)) == os.path.join(os.path.join(w, a), n)`
      for a plain relative directory name `a` and a relative `n`. */
  lemma JoinNested(w: string, a: string, n: string)
    requires a != "" && a[0] != '/' && a[|a| - 1] != '/' && (n != "" ==> n[0] != '/')
    ensures PathJoin(w, PathJoin(a, n)) == PathJoin(PathJoin(w, a), n)
  {
    var sep := if w == "" || EndsWith(w, "/") then "" else "/";
    JoinNestedInner(w, a, n);
    JoinNestedOuter(w, a, n);
    Associate(w + sep, a, "/" + n);
  }

  lemma JoinNestedInner(w: string, a: string, n: string)
    requires a != "" && a[0] != '/' && a[|a| - 1] != '/' && (n != "" ==> n[0] != '/')
    ensures PathJoin(w, PathJoin(a, n)) == w + (if w == "" || EndsWith(w, "/") then "" else "/") + (a + ("/" + n))
  {
    JoinPlain(a, n);
    var an := a + ("/" + n);
    assert an[0] == a[0];
    JoinRelative(w, an);
  }

  lemma JoinNestedOuter(w: string, a: string, n: string)
    requires a != "" && a[0] != '/' && a[|a| - 1] != '/' && (n != "" ==> n[0] != '/')
    ensures PathJoin(PathJoin(w, a), n) == w + (if w == "" || EndsWith(w, "/") then "" else "/") + a + ("/" + n)
  {
    JoinRelative(w, a);
    var wa := PathJoin(w, a);
    assert wa[|wa| - 1] == a[|a| - 1];
    EndsWithSlashIff(wa);
    JoinUnder(wa, n);
  }

  lemma Associate<T>(x: seq<T>, y: seq<T>, z: seq<T>)
    ensures x + (y + z) == x + y + z
  {
  }

  /** Joining a relative name without a leading slash under a plain name. */
  lemma JoinPlain(a: string, n: string)
    requires a != "" && a[|a| - 1] != '/' && (n != "" ==> n[0] != '/')
    ensures PathJoin(a, n) == a + ("/" + n)
  {
    StartsWithSlashIff(n);
    EndsWithSlashIff(a);
    JoinUnder(a, n);
  }

  /** Joining a name that does not start with a slash. */
  lemma JoinRelative(w: string, b: string)
    requires b != "" && b[0] != '/'
    ensures PathJoin(w, b) == w + (if w == "" || EndsWith(w, "/") then "" else "/") + b
  {
    StartsWithSlashIff(b);
  }

  // ---------------------------------------------------------------------
  // abspath and relpath

  /** A component that normalisation leaves untouched. */
  predicate IsPlainComponent(c: string) {
    c != "" && c != "." && c != ".." && '/' !in c
  }

  /** `posixpath.normpath` of an absolute path, as its list of components:
      empty and `.` components vanish, `..` removes the component before it
      and is dropped at the root. */
  function Normalize(cs: seq<string>): (r: seq<string>)
    ensures |r| <= |cs|
  {
    if cs == [] then []
    else
      var p := Normalize(cs[..|cs| - 1]);
      var c := cs[|cs| - 1];
      if c == "" || c == "." then p
      else if c == ".." then (if p == [] then [] else p[..|p| - 1])
      else p + [c]
  }

  /** Components made only of plain names are kept verbatim after what
      came before. */
  lemma {:induction false} NormalizePlainSuffix(xs: seq<string>, ys: seq<string>)
    requires forall k :: 0 <= k < |ys| ==> IsPlainComponent(ys[k])
    ensures Normalize(xs + ys) == Normalize(xs) + ys
    decreases |ys|
  {
    if ys == [] {
      assert xs + ys == xs;
    } else {
      var ys' := ys[..|ys| - 1];
      assert (xs + ys)[..|xs + ys| - 1] == xs + ys';
      NormalizePlainSuffix(xs, ys');
    }
  }

  /** The components of `abspath(p)` when the working directory is `cwd`. */
  function AbsComponents(p: string, cwd: string): seq<string> {
    var full := if StartsWith(p, "/") then p else cwd + "/" + p;
    Normalize(SplitOn(full, "/"))
  }

  function CommonPrefixLength(a: seq<string>, b: seq<string>): (n: nat)
    ensures n <= |a| && n <= |b|
    ensures a[..n] == b[..n]
    ensures n < |a| && n < |b| ==> a[n] != b[n]
  {
    if a == [] || b == [] || a[0] != b[0] then 0
    else
      var m := CommonPrefixLength(a[1..], b[1..]);
      assert a[..m + 1] == [a[0]] + a[1..][..m];
      assert b[..m + 1] == [b[0]] + b[1..][..m];
      m + 1
  }

  function Repeat(x: string, n: nat): (r: seq<string>)
    ensures |r| == n && forall k :: 0 <= k < n ==> r[k] == x
  {
    if n == 0 then [] else [x] + Repeat(x, n - 1)
  }

  /** The relative path that leads from the directory with components
      `sl` to the one with components `pl`. */
  function RelComponents(sl: seq<string>, pl: seq<string>): (r: string) {
    var i := CommonPrefixLength(sl, pl);
    var rel := Repeat("..", |sl| - i) + pl[i..];
    if rel == [] then "." else Join(rel, "/")
  }

  /** `os.path.relpath(path, start)`: climb out of `start` with `..` as far
      as the two absolute paths differ, then descend into `path`. Only an
      empty `path` raises; an empty `start` is `abspath("")`, the working
      directory. */
  function Relpath(path: string, start: string, cwd: string): (r: Result<string>)
    ensures r.Err? <==> path == ""
  {
    if path == "" then Err(ValueError("no path specified"))
    else Ok(RelComponents(AbsComponents(start, cwd), AbsComponents(path, cwd)))
  }

  /** `get_relpath(file_path, workdir)`: fails when `workdir` does not exist;
      a path that does not textually start with `workdir` is returned as it
      is, and one that does is made relative to it. The file itself is
      never looked up. */
  function GetRelpath(filePath: string, workdir: string, existing: set<string>, cwd: string): (r: Result<string>)
    ensures r.Err? <==> workdir !in existing || (StartsWith(filePath, workdir) && filePath == "")
    ensures workdir in existing && !StartsWith(filePath, workdir) ==> r == Ok(filePath)
    ensures workdir in existing && StartsWith(filePath, workdir) ==> r == Relpath(filePath, workdir, cwd)
  {
    if workdir !in existing then Err(Exception("Work directory " + workdir + " does not exist"))
    else if !StartsWith(filePath, workdir) then Ok(filePath)
    else Relpath(filePath, workdir, cwd)
  }

  /** A list agrees with any extension of itself on its whole length. */
  lemma {:induction false} CommonPrefixOfExtension(a: seq<string>, b: seq<string>)
    ensures CommonPrefixLength(a, a + b) == |a|
  {
    if a != [] {
      assert (a + b)[1..] == a[1..] + b;
      CommonPrefixOfExtension(a[1..], b);
    }
  }

  /** The absolute path whose components are `cs`. */
  function AbsPathOf(cs: seq<string>): string {
    "/" + Join(cs, "/")
  }

  /** `os.path.abspath(p)` when the working directory is `cwd`. */
  function AbsPath(p: string, cwd: string): string {
    AbsPathOf(AbsComponents(p, cwd))
  }

  lemma AbsComponentsOf(cs: seq<string>, cwd: string)
    requires |cs| >= 1
    requires forall k :: 0 <= k < |cs| ==> IsPlainComponent(cs[k])
    ensures AbsComponents(AbsPathOf(cs), cwd) == cs
  {
    var xs := [""] + cs;
    forall k | 0 <= k < |xs|
      ensures '/' !in xs[k]
    {
      if k > 0 {
        assert xs[k] == cs[k - 1];
      }
    }
    JoinCons("", cs, "/");
    SplitJoinChar(xs, '/');
    NormalizePlainSuffix([""], cs);
    assert Normalize([""]) == [];
  }

  /** `relpath` of a path below `start` is the part below it. */
  lemma RelpathBelow(ws: seq<string>, rs: seq<string>, cwd: string)
    requires |ws| >= 1 && |rs| >= 1
    requires forall k :: 0 <= k < |ws| ==> IsPlainComponent(ws[k])
    requires forall k :: 0 <= k < |rs| ==> IsPlainComponent(rs[k])
    ensures Relpath(AbsPathOf(ws + rs), AbsPathOf(ws), cwd) == Ok(Join(rs, "/"))
  {
    forall k | 0 <= k < |ws + rs|
      ensures IsPlainComponent((ws + rs)[k])
    {
      if k >= |ws| {
        assert (ws + rs)[k] == rs[k - |ws|];
      }
    }
    AbsComponentsOf(ws, cwd);
    AbsComponentsOf(ws + rs, cwd);
    RelComponentsBelow(ws, rs);
  }

  lemma RelComponentsBelow(ws: seq<string>, rs: seq<string>)
    requires |rs| >= 1
    ensures RelComponents(ws, ws + rs) == Join(rs, "/")
  {
    CommonPrefixOfExtension(ws, rs);
    assert (ws + rs)[|ws|..] == rs;
    assert Repeat("..", 0) + rs == rs;
  }

  /** A file below an existing workdir comes back as its path relative to
      the workdir, so joining the two gives the file's path again. */
  lemma GetRelpathBelowWorkdir(ws: seq<string>, rs: seq<string>, existing: set<string>, cwd: string)
    requires |ws| >= 1 && |rs| >= 1
    requires forall k :: 0 <= k < |ws| ==> IsPlainComponent(ws[k])
    requires forall k :: 0 <= k < |rs| ==> IsPlainComponent(rs[k])
    requires AbsPathOf(ws) in existing
    ensures GetRelpath(AbsPathOf(ws + rs), AbsPathOf(ws), existing, cwd) == Ok(Join(rs, "/"))
    ensures PathJoin(AbsPathOf(ws), Join(rs, "/")) == AbsPathOf(ws + rs)
  {
    var w, f, j := AbsPathOf(ws), AbsPathOf(ws + rs), Join(rs, "/");
    AbsPathAppend(ws, rs);
    PrefixOfConcat(w, "/" + j);
    assert StartsWith(f, w);
    RelpathBelow(ws, rs, cwd);
    assert GetRelpath(f, w, existing, cwd) == Relpath(f, w, cwd);
    PlainJoinEdges(ws);
    PlainJoinEdges(rs);
    JoinUnder(w, j);
  }

  lemma AbsPathAppend(ws: seq<string>, rs: seq<string>)
    requires |ws| >= 1 && |rs| >= 1
    ensures AbsPathOf(ws + rs) == AbsPathOf(ws) + ("/" + Join(rs, "/"))
  {
    JoinAppend(ws, rs, "/");
  }

  lemma PrefixOfConcat(a: string, b: string)
    ensures StartsWith(a + b, a)
  {
    assert (a + b)[..|a|] == a;
  }

  /** Joining a relative path under a directory not ending in `/` inserts
      exactly one slash. */
  lemma JoinUnder(w: string, j: string)
    requires w != "" && !EndsWith(w, "/") && !StartsWith(j, "/")
    ensures PathJoin(w, j) == w + ("/" + j)
  {
    assert w + "/" + j == w + ("/" + j);
  }

  /** A join of plain components neither starts nor ends with a slash. */
  lemma PlainJoinEdges(cs: seq<string>)
    requires |cs| >= 1
    requires forall k :: 0 <= k < |cs| ==> IsPlainComponent(cs[k])
    ensures !StartsWith(Join(cs, "/"), "/")
    ensures !EndsWith(Join(cs, "/"), "/")
    ensures !EndsWith("/" + Join(cs, "/"), "/")
  {
    var j := Join(cs, "/");
    JoinHead(cs, "/");
    JoinLast(cs, "/");
    var f, l := cs[0], cs[|cs| - 1];
    assert f[0] in f && l[|l| - 1] in l;
    assert j[0] == f[0];
    assert j[|j| - 1] == l[|l| - 1];
    assert ("/" + j)[|"/" + j| - 1] == j[|j| - 1];
  }

  /** `/x/yz` is not inside `/x/y`, although it starts with that text, so
      it comes back as `../yz` (for instance `/a/bc` against `/a/b`). */
  lemma GetRelpathTextualPrefix(x: string, y: string, z: string, cwd: string)
    requires IsPlainComponent(x) && IsPlainComponent(y) && z != [] && '/' !in z
    ensures StartsWith("/" + x + "/" + y + z, "/" + x + "/" + y)
    ensures GetRelpath("/" + x + "/" + y + z, "/" + x + "/" + y, {"/" + x + "/" + y}, cwd) == Ok("../" + y + z)
  {
    var yz := y + z;
    var path, start := "/" + x + "/" + yz, "/" + x + "/" + y;
    assert "/" + x + "/" + y + z == path && path == start + z;
    assert IsPlainComponent(yz) by {
      assert |yz| >= 2;
      assert forall k :: 0 <= k < |yz| ==> yz[k] == if k < |y| then y[k] else z[k - |y|];
    }
    assert AbsComponents(path, cwd) == [x, yz] by {
      TwoComponents(x, yz, cwd);
    }
    assert AbsComponents(start, cwd) == [x, y] by {
      TwoComponents(x, y, cwd);
    }
    RelpathOfComponents(path, start, cwd, [x, yz], [x, y]);
    StepOut(x, y, yz);
    assert "../" + y + z == ".." + "/" + yz;
  }

  lemma TwoComponents(x: string, y: string, cwd: string)
    requires IsPlainComponent(x) && IsPlainComponent(y)
    ensures AbsComponents("/" + x + "/" + y, cwd) == [x, y]
  {
    assert AbsPathOf([x, y]) == "/" + x + "/" + y by {
      JoinCons(x, [y], "/");
    }
    AbsComponentsOf([x, y], cwd);
  }

  lemma RelpathOfComponents(path: string, start: string, cwd: string, pc: seq<string>, sc: seq<string>)
    requires path != "" && start != ""
    requires AbsComponents(path, cwd) == pc && AbsComponents(start, cwd) == sc
    ensures Relpath(path, start, cwd) == Ok(RelComponents(sc, pc))
  {
  }

  /** From `x/y` to its sibling `x/yz` is one step out and one in. */
  lemma StepOut(x: string, y: string, yz: string)
    requires y != yz
    ensures RelComponents([x, y], [x, yz]) == ".." + "/" + yz
  {
    var ws, fs := [x, y], [x, yz];
    assert ws[1..] == [y] && fs[1..] == [yz];
    assert CommonPrefixLength([y], [yz]) == 0;
    assert CommonPrefixLength(ws, fs) == 1;
    assert Repeat("..", 1) + fs[1..] == ["..", yz];
    JoinCons("..", [yz], "/");
  }
}
