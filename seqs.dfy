/** Generic sequence helpers: the list comprehensions `[x for x in s if f(x)]`
    and flattening used throughout the pipeline code. */
module Seqs {

  /** `[x for x in s if keep(x)]`. */
  function Filter<T>(keep: T -> bool, s: seq<T>): (r: seq<T>)
    ensures |r| <= |s|
  {
    if s == [] then []
    else (if keep(s[0]) then [s[0]] else []) + Filter(keep, s[1..])
  }

  /** The filter keeps exactly the elements that pass. */
  lemma {:induction false} FilterMembers<T>(keep: T -> bool, s: seq<T>)
    ensures forall x :: x in Filter(keep, s) ==> x in s && keep(x)
    ensures forall x :: x in s && keep(x) ==> x in Filter(keep, s)
  {
    if s != [] {
      var h, t := s[0], s[1..];
      assert s == [h] + t;
      FilterCons(keep, h, t);
      FilterMembers(keep, t);
    }
  }

  /** Two filters in a row leave something exactly when some element passes
      both. */
  lemma FilterFilterNonEmpty<T>(first: T -> bool, second: T -> bool, s: seq<T>)
    ensures Filter(second, Filter(first, s)) != [] <==> exists x :: x in s && first(x) && second(x)
  {
    var once := Filter(first, s);
    var twice := Filter(second, once);
    FilterMembers(first, s);
    FilterMembers(second, once);
    if twice != [] {
      var y := twice[0];
      assert y in twice;
      assert y in once && second(y);
      assert y in s && first(y) && second(y);
    }
    if exists x :: x in s && first(x) && second(x) {
      var x :| x in s && first(x) && second(x);
      assert x in once;
      assert x in twice;
    }
  }

  /** An element that passes occurs as often after the filter as before. */
  lemma {:induction false} CountKept<T>(keep: T -> bool, s: seq<T>, x: T)
    requires keep(x)
    ensures multiset(Filter(keep, s))[x] == multiset(s)[x]
  {
    if s != [] {
      var h, t := s[0], s[1..];
      assert s == [h] + t;
      FilterCons(keep, h, t);
      CountKept(keep, t, x);
    }
  }

  /** One step of the filter. */
  lemma FilterCons<T>(keep: T -> bool, h: T, t: seq<T>)
    ensures Filter(keep, [h] + t) == (if keep(h) then [h] else []) + Filter(keep, t)
  {
    assert ([h] + t)[1..] == t;
  }

  lemma {:induction false} FilterAppend<T>(keep: T -> bool, a: seq<T>, b: seq<T>)
    ensures Filter(keep, a + b) == Filter(keep, a) + Filter(keep, b)
  {
    if a == [] {
      assert a + b == b;
    } else {
      var h, t := a[0], a[1..];
      assert a == [h] + t;
      assert a + b == [h] + (t + b);
      FilterCons(keep, h, t + b);
      FilterCons(keep, h, t);
      FilterAppend(keep, t, b);
    }
  }

  /** Filtering keeps an element that passes and drops one that does not. */
  lemma FilterSnoc<T>(keep: T -> bool, a: seq<T>, x: T)
    ensures Filter(keep, a + [x]) == Filter(keep, a) + (if keep(x) then [x] else [])
  {
    FilterAppend(keep, a, [x]);
  }

  /** Filtering by a predicate and by its negation splits the sequence
      into two parts that together hold every element as often as it. */
  lemma {:induction false} FilterPartition<T>(keep: T -> bool, drop: T -> bool, s: seq<T>)
    requires forall x :: drop(x) == !keep(x)
    ensures multiset(Filter(keep, s)) + multiset(Filter(drop, s)) == multiset(s)
  {
    if s != [] {
      var h, t := s[0], s[1..];
      assert s == [h] + t;
      FilterCons(keep, h, t);
      FilterCons(drop, h, t);
      FilterPartition(keep, drop, t);
    }
  }

  /** Concatenation of a sequence of sequences, in order. */
  function Flatten<T>(ss: seq<seq<T>>): (r: seq<T>)
    ensures forall s, x :: s in ss && x in s ==> x in r
  {
    if ss == [] then [] else ss[0] + Flatten(ss[1..])
  }

  lemma {:induction false} FlattenSnoc<T>(ss: seq<seq<T>>, s: seq<T>)
    ensures Flatten(ss + [s]) == Flatten(ss) + s
  {
    if ss == [] {
      assert [] + [s] == [s];
    } else {
      assert (ss + [s])[1..] == ss[1..] + [s];
      FlattenSnoc(ss[1..], s);
    }
  }

  lemma {:induction false} FlattenAppend<T>(a: seq<seq<T>>, b: seq<seq<T>>)
    ensures Flatten(a + b) == Flatten(a) + Flatten(b)
  {
    if a == [] {
      assert [] + b == b;
    } else {
      assert (a + b)[1..] == a[1..] + b;
      FlattenAppend(a[1..], b);
    }
  }

  /** One more element of a filter-then-concatenate, as a loop adds it. */
  lemma FlattenFilterStep<T>(keep: seq<T> -> bool, s: seq<seq<T>>, i: nat)
    requires i < |s|
    ensures Flatten(Filter(keep, s[..i + 1])) ==
      Flatten(Filter(keep, s[..i])) + (if keep(s[i]) then s[i] else [])
  {
    assert s[..i + 1] == s[..i] + [s[i]];
    FilterSnoc(keep, s[..i], s[i]);
    if keep(s[i]) {
      FlattenSnoc(Filter(keep, s[..i]), s[i]);
    } else {
      assert Filter(keep, s[..i]) + [] == Filter(keep, s[..i]);
      assert Flatten(Filter(keep, s[..i])) + [] == Flatten(Filter(keep, s[..i]));
    }
  }

  lemma FlattenFour<T>(t: seq<seq<T>>)
    requires |t| == 4
    ensures Flatten(t) == t[0] + t[1] + t[2] + t[3]
  {
    assert Flatten(t[3..]) == t[3] by {
      assert t[3..][1..] == [];
      assert t[3] + [] == t[3];
    }
    assert t[2..][1..] == t[3..];
    assert Flatten(t[2..]) == t[2] + t[3];
    assert t[1..][1..] == t[2..];
    assert Flatten(t[1..]) == t[1] + (t[2] + t[3]);
    calc {
      Flatten(t);
      t[0] + (t[1] + (t[2] + t[3]));
      t[0] + t[1] + t[2] + t[3];
    }
  }

  /** `[f(x) for x in s]`. */
  function MapSeq<A, B>(f: A -> B, s: seq<A>): (r: seq<B>)
    ensures |r| == |s|
    ensures forall i :: 0 <= i < |s| ==> r[i] == f(s[i])
  {
    seq(|s|, i requires 0 <= i < |s| => f(s[i]))
  }

  lemma MapSeqCons<A, B>(f: A -> B, h: A, t: seq<A>)
    ensures MapSeq(f, [h] + t) == [f(h)] + MapSeq(f, t)
  {
    var l, r := MapSeq(f, [h] + t), [f(h)] + MapSeq(f, t);
    forall i | 0 <= i < |l|
      ensures l[i] == r[i]
    {
      if i > 0 {
        assert ([h] + t)[i] == t[i - 1];
      }
    }
    assert l == r;
  }

  /** Mapping with a function that the filter cannot tell apart from the
      identity commutes with the filter. */
  lemma {:induction false} FilterMapSeq<T>(keep: T -> bool, f: T -> T, s: seq<T>)
    requires forall x :: keep(f(x)) == keep(x)
    ensures Filter(keep, MapSeq(f, s)) == MapSeq(f, Filter(keep, s))
  {
    if s == [] {
      assert MapSeq(f, s) == [];
    } else {
      var h, t := s[0], s[1..];
      assert s == [h] + t;
      MapSeqCons(f, h, t);
      FilterCons(keep, f(h), MapSeq(f, t));
      FilterCons(keep, h, t);
      FilterMapSeq(keep, f, t);
      var ft := Filter(keep, t);
      if keep(h) {
        MapSeqCons(f, h, ft);
      } else {
        assert [] + ft == ft;
        assert [] + MapSeq(f, ft) == MapSeq(f, ft);
      }
    }
  }
}
