/** A `for` loop over a sequence whose body may raise: the state after
    each element, or the first exception, which ends the loop. */
module Folds {
  import opened Wrappers
  import opened Seqs

  /** The loop over `xs` from state `s`, one `step` per element, in order. */
  function Fold<S, T>(step: (S, T) -> Result<S>, s: S, xs: seq<T>): Result<S> {
    if xs == [] then Ok(s)
    else
      match Fold(step, s, xs[..|xs| - 1])
      case Err(e) => Err(e)
      case Ok(t) => step(t, xs[|xs| - 1])
  }

  /** One more iteration, as a loop with index `i` performs it. */
  lemma FoldNext<S, T>(step: (S, T) -> Result<S>, s: S, xs: seq<T>, i: nat)
    requires i < |xs|
    ensures Fold(step, s, xs[..i + 1]) ==
      match Fold(step, s, xs[..i])
      case Err(e) => Err(e)
      case Ok(t) => step(t, xs[i])
  {
    assert xs[..i + 1][..i] == xs[..i];
  }

  /** Once an iteration has raised, the rest of the loop does not run. */
  lemma {:induction false} FoldStopped<S, T>(step: (S, T) -> Result<S>, s: S, xs: seq<T>, k: nat)
    requires k <= |xs| && Fold(step, s, xs[..k]).Err?
    ensures Fold(step, s, xs) == Fold(step, s, xs[..k])
    decreases |xs| - k
  {
    if k < |xs| {
      FoldNext(step, s, xs, k);
      FoldStopped(step, s, xs, k + 1);
    } else {
      assert xs[..k] == xs;
    }
  }

  /** The loop of one iteration is that iteration. */
  lemma FoldOne<S, T>(step: (S, T) -> Result<S>, s: S, x: T)
    ensures Fold(step, s, [x]) == step(s, x)
  {
    assert [x][..0] == [];
  }

  /** Every exception of the loop is an exception of one of its steps. */
  lemma {:induction false} FoldErrors<S, T>(step: (S, T) -> Result<S>, s: S, xs: seq<T>, allowed: PyError -> bool)
    requires forall t, x :: x in xs && step(t, x).Err? ==> allowed(step(t, x).error)
    ensures Fold(step, s, xs).Err? ==> allowed(Fold(step, s, xs).error)
  {
    if xs != [] {
      FoldErrors(step, s, xs[..|xs| - 1], allowed);
    }
  }

  /** A property of the state that every step keeps holds after the loop. */
  lemma {:induction false} FoldKeeps<S, T>(step: (S, T) -> Result<S>, s: S, xs: seq<T>, inv: S -> bool)
    requires inv(s)
    requires forall t, x :: x in xs && inv(t) && step(t, x).Ok? ==> inv(step(t, x).value)
    ensures Fold(step, s, xs).Ok? ==> inv(Fold(step, s, xs).value)
  {
    if xs != [] {
      FoldKeeps(step, s, xs[..|xs| - 1], inv);
    }
  }

  /** A loop that appends `out(x)` for each element and raises exactly on
      the elements `fails` picks: it completes exactly when no element
      fails, and then it has appended the pieces of all elements in order. */
  lemma {:induction false} FoldAppends<T, U>(step: (seq<U>, T) -> Result<seq<U>>, xs: seq<T>,
                                             fails: T -> bool, out: T -> seq<U>)
    requires forall l, x :: x in xs ==> (step(l, x).Err? <==> fails(x))
    requires forall l, x :: x in xs && step(l, x).Ok? ==> step(l, x).value == l + out(x)
    ensures Fold(step, [], xs).Ok? <==> forall i :: 0 <= i < |xs| ==> !fails(xs[i])
    ensures Fold(step, [], xs).Ok? ==> Fold(step, [], xs).value == Flatten(MapSeq(out, xs))
  {
    if xs == [] {
      assert MapSeq(out, xs) == [];
    } else {
      var init, x := xs[..|xs| - 1], xs[|xs| - 1];
      assert xs == init + [x];
      FoldAppends(step, init, fails, out);
      assert forall i :: 0 <= i < |init| ==> init[i] == xs[i];
      assert MapSeq(out, xs) == MapSeq(out, init) + [out(x)];
      FlattenSnoc(MapSeq(out, init), out(x));
    }
  }
}
