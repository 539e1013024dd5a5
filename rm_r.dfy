/** `scripts/rm_r.py`: removing a directory tree in which some files or
    directories cannot be removed.

    The filesystem below the root is a tree of nodes; each file records
    whether `os.remove` succeeds on it and each directory whether `os.rmdir`
    succeeds once it is empty. An entry that is not a file and cannot be
    listed (a dangling link, a directory without read permission) is a node
    of its own. A removal returns what is left of the node. */
module RmR {
  import opened Wrappers
  import opened Paths

  /** The path `recursive_remove` is called on: the root as given, or
      `os.path.join(parent, name)` for an entry of a directory. */
  datatype RmPath = Root(dir: string) | Child(parent: RmPath, name: string)

  /** The path as a string, as `os.path.join` builds it. */
  function PathText(p: RmPath): string {
    match p
    case Root(dir) => dir
    case Child(parent, name) => PathJoin(PathText(parent), name)
  }

  datatype Node =
    | File(name: string, removable: bool)
    | Dir(name: string, children: seq<Node>, rmdirOk: bool)
    | Unlistable(name: string)

  /** The outcome of `recursive_remove` on a node: gone, or an exception
      with what is left of the node. */
  datatype Removal = Gone | Failed(error: PyError, left: Node)

  /** What the loop over a directory's children has seen: whether every
      child was removed, whether an exception other than ValueError escaped
      (which ends the loop), and the children left over, in order. */
  datatype Sweep = Sweep(allSucceeded: bool, escaped: Option<PyError>, left: seq<Node>)

  function NChildren(n: Node): nat {
    if n.Dir? then |n.children| else 0
  }

  /** `recursive_remove(path)` on the node at `path`. A file that cannot be
      removed raises ValueError; `os.listdir` on an entry it cannot list
      raises OSError (FileNotFoundError, PermissionError); a directory whose
      children were not all removed raises ValueError; `os.rmdir` raises
      OSError. */
  function Remove(path: RmPath, n: Node): Removal
    decreases n, NChildren(n) + 1
  {
    match n
    case File(_, removable) =>
      if removable then Gone else Failed(ValueError(PathText(path)), n)
    case Unlistable(_) => Failed(OSError(PathText(path)), n)
    case Dir(name, cs, rmdirOk) =>
      var s := SweepChildren(path, n, |cs|);
      if s.escaped.Some? then Failed(s.escaped.value, Dir(name, s.left, rmdirOk))
      else if !s.allSucceeded then Failed(ValueError(PathText(path)), Dir(name, s.left, rmdirOk))
      else if rmdirOk then Gone
      else Failed(OSError(PathText(path)), Dir(name, [], rmdirOk))
  }

  /** The loop over the first `k` children of directory `n`: a ValueError
      clears the flag and the loop goes on; any other exception escapes,
      leaving the later children untouched. */
  function SweepChildren(path: RmPath, n: Node, k: nat): Sweep
    requires n.Dir? && k <= |n.children|
    decreases n, k
  {
    if k == 0 then Sweep(true, None, [])
    else
      var s := SweepChildren(path, n, k - 1);
      var c := n.children[k - 1];
      if s.escaped.Some? then Sweep(s.allSucceeded, s.escaped, s.left + [c])
      else match Remove(Child(path, c.name), c)
        case Gone => s
        case Failed(e, left) =>
          if e.ValueError? then Sweep(false, None, s.left + [left])
          else Sweep(s.allSucceeded, Some(e), s.left + [left])
  }

  lemma AppendSlice<T>(a: seq<T>, xs: seq<T>, i: nat, k: nat)
    requires i < k <= |xs|
    ensures a + xs[i..k - 1] + [xs[k - 1]] == a + xs[i..k]
  {
    assert xs[i..k - 1] + [xs[k - 1]] == xs[i..k];
  }

  /** After an escape, the next child is kept as it is. */
  lemma EscapedStep(path: RmPath, n: Node, k: nat)
    requires n.Dir? && 0 < k <= |n.children|
    requires SweepChildren(path, n, k - 1).escaped.Some?
    ensures SweepChildren(path, n, k) ==
      var s := SweepChildren(path, n, k - 1);
      Sweep(s.allSucceeded, s.escaped, s.left + [n.children[k - 1]])
  {
  }

  /** Once an exception has escaped, the remaining children are kept as
      they are. */
  lemma {:induction false} EscapedStays(path: RmPath, n: Node, i: nat, k: nat)
    requires n.Dir? && i <= k <= |n.children|
    requires SweepChildren(path, n, i).escaped.Some?
    ensures SweepChildren(path, n, k) ==
      var s := SweepChildren(path, n, i);
      Sweep(s.allSucceeded, s.escaped, s.left + n.children[i..k])
    decreases k - i
  {
    var s := SweepChildren(path, n, i);
    if k == i {
      assert n.children[i..k] == [];
      assert s.left + [] == s.left;
    } else {
      EscapedStays(path, n, i, k - 1);
      var t := SweepChildren(path, n, k - 1);
      assert t.escaped == s.escaped && t.allSucceeded == s.allSucceeded;
      assert t.left == s.left + n.children[i..k - 1];
      EscapedStep(path, n, k);
      AppendSlice(s.left, n.children, i, k);
    }
  }

  /** One more child of the loop, from the outcome of removing it. */
  lemma SweepStep(path: RmPath, n: Node, i: nat, sub: Removal)
    requires n.Dir? && i < |n.children|
    requires SweepChildren(path, n, i).escaped.None?
    requires sub == Remove(Child(path, n.children[i].name), n.children[i])
    ensures
      var s := SweepChildren(path, n, i);
      SweepChildren(path, n, i + 1) ==
        if sub.Gone? then s
        else if sub.error.ValueError? then Sweep(false, None, s.left + [sub.left])
        else Sweep(s.allSucceeded, Some(sub.error), s.left + [sub.left])
  {
  }

  /** An exception other than ValueError from child `i` ends the loop with
      the later children untouched. */
  lemma Escape(path: RmPath, n: Node, i: nat, sub: Removal)
    requires n.Dir? && i < |n.children|
    requires SweepChildren(path, n, i).escaped.None?
    requires sub == Remove(Child(path, n.children[i].name), n.children[i])
    requires sub.Failed? && !sub.error.ValueError?
    ensures
      var s := SweepChildren(path, n, i);
      SweepChildren(path, n, |n.children|) ==
        Sweep(s.allSucceeded, Some(sub.error), s.left + [sub.left] + n.children[i + 1..])
  {
    SweepStep(path, n, i, sub);
    EscapedStays(path, n, i + 1, |n.children|);
    assert n.children[i + 1..|n.children|] == n.children[i + 1..];
  }

  lemma DirOutcome(path: RmPath, n: Node)
    requires n.Dir?
    ensures Remove(path, n) ==
      var s := SweepChildren(path, n, |n.children|);
      if s.escaped.Some? then Failed(s.escaped.value, Dir(n.name, s.left, n.rmdirOk))
      else if !s.allSucceeded then Failed(ValueError(PathText(path)), Dir(n.name, s.left, n.rmdirOk))
      else if n.rmdirOk then Gone
      else Failed(OSError(PathText(path)), Dir(n.name, [], n.rmdirOk))
  {
  }

  /** `recursive_remove(path)`: removes the node at `path` and reports what
      is left. */
  method RecursiveRemove(path: RmPath, n: Node) returns (r: Removal)
    ensures r == Remove(path, n)
    decreases n, 1
  {
    if n.File? {
      if n.removable {
        r := Gone;
      } else {
        r := Failed(ValueError(PathText(path)), n);
      }
    } else if n.Unlistable? {
      r := Failed(OSError(PathText(path)), n);
    } else {
      DirOutcome(path, n);
      var s := RemoveChildren(path, n);
      if s.escaped.Some? {
        return Failed(s.escaped.value, Dir(n.name, s.left, n.rmdirOk));
      }
      if !s.allSucceeded {
        return Failed(ValueError(PathText(path)), Dir(n.name, s.left, n.rmdirOk));
      }
      if n.rmdirOk {
        r := Gone;
      } else {
        r := Failed(OSError(PathText(path)), Dir(n.name, [], n.rmdirOk));
      }
    }
  }

  /** The loop of `recursive_remove` over the entries of a directory. */
  method RemoveChildren(path: RmPath, n: Node) returns (s: Sweep)
    requires n.Dir?
    ensures s == SweepChildren(path, n, |n.children|)
    decreases n, 0
  {
    var cs := n.children;
    var allSucceeded := true;
    var left: seq<Node> := [];
    var i := 0;
    while i < |cs|
      invariant 0 <= i <= |cs|
      invariant SweepChildren(path, n, i) == Sweep(allSucceeded, None, left)
    {
      var sub := RecursiveRemove(Child(path, cs[i].name), cs[i]);
      SweepStep(path, n, i, sub);
      if sub.Failed? {
        if !sub.error.ValueError? {
          Escape(path, n, i, sub);
          return Sweep(allSucceeded, Some(sub.error), left + [sub.left] + cs[i + 1..]);
        }
        allSucceeded := false;
        left := left + [sub.left];
      }
      i := i + 1;
    }
    s := Sweep(allSucceeded, None, left);
  }

  // ---------------------------------------------------------------------
  // What a removal promises

  /** Every file below the node can be removed, and so can every directory
      once emptied. */
  predicate FullyRemovable(n: Node)
    decreases n
  {
    match n
    case File(_, removable) => removable
    case Unlistable(_) => false
    case Dir(_, cs, rmdirOk) => rmdirOk && forall i :: 0 <= i < |cs| ==> FullyRemovable(cs[i])
  }

  /** Every entry below the node that is not a file can be listed, and no
      directory refuses `os.rmdir`. */
  predicate DirsRemovable(n: Node)
    decreases n
  {
    match n
    case File(_, _) => true
    case Unlistable(_) => false
    case Dir(_, cs, rmdirOk) => rmdirOk && forall i :: 0 <= i < |cs| ==> DirsRemovable(cs[i])
  }

  function ChildRemoval(path: RmPath, n: Node, j: nat): Removal
    requires n.Dir? && j < |n.children|
  {
    Remove(Child(path, n.children[j].name), n.children[j])
  }

  /** Every one of the first `k` children was removed. */
  predicate AllGone(path: RmPath, n: Node, k: nat)
    requires n.Dir? && k <= |n.children|
  {
    k == 0 || (AllGone(path, n, k - 1) && ChildRemoval(path, n, k - 1).Gone?)
  }

  lemma {:induction false} AllGoneIff(path: RmPath, n: Node, k: nat)
    requires n.Dir? && k <= |n.children|
    ensures AllGone(path, n, k) <==> forall j :: 0 <= j < k ==> ChildRemoval(path, n, j).Gone?
  {
    if k > 0 {
      AllGoneIff(path, n, k - 1);
      var last := ChildRemoval(path, n, k - 1).Gone?;
      assert AllGone(path, n, k) == (AllGone(path, n, k - 1) && last);
      if AllGone(path, n, k) {
        forall j | 0 <= j < k
          ensures ChildRemoval(path, n, j).Gone?
        {
          if j < k - 1 {
            assert AllGone(path, n, k - 1);
          }
        }
      }
    }
  }

  /** The flag stays set with nothing escaping exactly when every child so
      far was removed. */
  lemma {:induction false} SweepClean(path: RmPath, n: Node, k: nat)
    requires n.Dir? && k <= |n.children|
    ensures (SweepChildren(path, n, k).escaped.None? && SweepChildren(path, n, k).allSucceeded) ==
      AllGone(path, n, k)
  {
    if k > 0 {
      var s := SweepChildren(path, n, k - 1);
      var sub := ChildRemoval(path, n, k - 1);
      SweepClean(path, n, k - 1);
      if s.escaped.Some? {
        EscapedStep(path, n, k);
        assert !AllGone(path, n, k - 1);
      } else {
        SweepStep(path, n, k - 1, sub);
        if sub.Gone? {
          assert SweepChildren(path, n, k) == s;
        } else {
          assert !SweepChildren(path, n, k).allSucceeded || SweepChildren(path, n, k).escaped.Some?;
        }
      }
    }
  }

  /** A node disappears exactly when everything in it can be removed; a
      single file or directory that cannot be removed anywhere in the tree
      makes every directory above it fail. */
  lemma {:induction false} GoneIff(path: RmPath, n: Node)
    ensures Remove(path, n).Gone? <==> FullyRemovable(n)
    decreases n
  {
    if n.Dir? {
      DirOutcome(path, n);
      SweepClean(path, n, |n.children|);
      AllGoneIff(path, n, |n.children|);
      forall j | 0 <= j < |n.children|
        ensures ChildRemoval(path, n, j).Gone? <==> FullyRemovable(n.children[j])
      {
        GoneIff(Child(path, n.children[j].name), n.children[j]);
      }
    }
  }

  /** A directory with a child that cannot be fully removed is not
      removed. */
  lemma AncestorFails(path: RmPath, n: Node, i: nat)
    requires n.Dir? && i < |n.children| && !FullyRemovable(n.children[i])
    ensures Remove(path, n).Failed?
  {
    GoneIff(path, n);
  }

  /** The children left after removing each of a list of entries in turn:
      what is left of each one that failed. */
  function Leftovers(path: RmPath, cs: seq<Node>): seq<Node> {
    if cs == [] then []
    else
      var r := Remove(Child(path, cs[|cs| - 1].name), cs[|cs| - 1]);
      Leftovers(path, cs[..|cs| - 1]) + (if r.Failed? then [r.left] else [])
  }

  predicate Escapes(r: Removal) {
    r.Failed? && !r.error.ValueError?
  }

  /** While only ValueErrors occur, every child is attempted, however many
      earlier siblings failed, and the failed ones are left in order. */
  lemma {:induction false} AllChildrenAttempted(path: RmPath, n: Node, k: nat)
    requires n.Dir? && k <= |n.children|
    requires forall j :: 0 <= j < k ==> !Escapes(ChildRemoval(path, n, j))
    ensures SweepChildren(path, n, k).escaped.None?
    ensures SweepChildren(path, n, k).left == Leftovers(path, n.children[..k])
  {
    if k > 0 {
      AllChildrenAttempted(path, n, k - 1);
      SweepStep(path, n, k - 1, ChildRemoval(path, n, k - 1));
      assert n.children[..k][..k - 1] == n.children[..k - 1];
      var s := SweepChildren(path, n, k - 1);
      if ChildRemoval(path, n, k - 1).Gone? {
        assert s.left + [] == s.left;
      }
    }
  }

  /** An entry that cannot be listed escapes the loop of its directory
      with OSError: the siblings after it are not attempted, and the
      directory is left with all of them. */
  lemma UnlistableEscapes(path: RmPath, name: string, x: string, rest: seq<Node>, rmdirOk: bool)
    ensures Remove(path, Dir(name, [Unlistable(x)] + rest, rmdirOk)) ==
      Failed(OSError(PathText(Child(path, x))), Dir(name, [Unlistable(x)] + rest, rmdirOk))
  {
    var n := Dir(name, [Unlistable(x)] + rest, rmdirOk);
    var sub := Remove(Child(path, x), Unlistable(x));
    assert SweepChildren(path, n, 0) == Sweep(true, None, []);
    Escape(path, n, 0, sub);
    assert [] + [Unlistable(x)] + n.children[1..] == n.children;
    DirOutcome(path, n);
  }

  /** When every directory can be removed once empty, the only exception is
      ValueError. */
  lemma {:induction false} OnlyValueErrors(path: RmPath, n: Node)
    requires DirsRemovable(n)
    ensures Remove(path, n).Failed? ==> Remove(path, n).error.ValueError?
    decreases n
  {
    if n.Dir? {
      DirOutcome(path, n);
      forall j | 0 <= j < |n.children|
        ensures !Escapes(ChildRemoval(path, n, j))
      {
        OnlyValueErrors(Child(path, n.children[j].name), n.children[j]);
      }
      AllChildrenAttempted(path, n, |n.children|);
    }
  }

  // ---------------------------------------------------------------------
  // The script

  /** `rm_r.py ROOT`: the exception raised, if any, and what is left on
      disk; `disk` is the tree at `ROOT`, or nothing when it does not exist.
      `ROOT` is a required positional argument, so argparse has always
      supplied it; a root that does not exist raises ValueError before
      anything is touched, and otherwise an exception escapes exactly when
      something is left. */
  function RmRoot(rootDir: string, disk: Option<Node>): (r: (Option<PyError>, Option<Node>))
    ensures disk.None? ==> r == (Some(ValueError(rootDir + " does not exist.")), None)
    ensures disk.Some? ==> (r.0.None? <==> r.1.None?)
  {
    if disk.None? then (Some(ValueError(rootDir + " does not exist.")), None)
    else match Remove(Root(rootDir), disk.value)
      case Gone => (None, None)
      case Failed(e, left) => (Some(e), Some(left))
  }

  /** The script finishes without an exception exactly when the whole tree
      can be removed, and then nothing is left. */
  lemma RmRootSucceedsIff(rootDir: string, disk: Option<Node>)
    ensures RmRoot(rootDir, disk).0.None? <==> disk.Some? && FullyRemovable(disk.value)
    ensures RmRoot(rootDir, disk).0.None? ==> RmRoot(rootDir, disk).1.None?
  {
    if disk.Some? {
      GoneIff(Root(rootDir), disk.value);
    }
  }
}
