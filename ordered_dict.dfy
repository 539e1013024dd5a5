/** Python's `dict` with string keys and values, as the pipeline code uses
    it: entries keep the order in which their keys were first inserted, and
    assigning to a key that is already present changes its value in place. */
module OrderedDict {
  import opened Wrappers

  /** The entries in insertion order; `Valid` says no key repeats. */
  type Dict = seq<(string, string)>

  function Keys(d: Dict): (ks: seq<string>)
    ensures |ks| == |d|
  {
    if d == [] then [] else [d[0].0] + Keys(d[1..])
  }

  /** The keys are the entries' first components, position by position. */
  lemma {:induction false} KeysAt(d: Dict)
    ensures forall i :: 0 <= i < |d| ==> Keys(d)[i] == d[i].0
  {
    if d != [] {
      KeysAt(d[1..]);
      assert forall i :: 1 <= i < |d| ==> d[1..][i - 1] == d[i];
    }
  }

  predicate Valid(d: Dict) {
    forall i, j :: 0 <= i < j < |d| ==> d[i].0 != d[j].0
  }

  predicate HasKey(d: Dict, k: string) {
    k in Keys(d)
  }

  /** `d.get(k)`. */
  function Get(d: Dict, k: string): (r: Option<string>)
    ensures r.Some? <==> HasKey(d, k)
  {
    if d == [] then None
    else if d[0].0 == k then Some(d[0].1)
    else Get(d[1..], k)
  }

  /** `d[k] = v`: an existing key keeps its place and takes the new value;
      a new key goes to the end. Every other entry is unchanged. */
  function Set(d: Dict, k: string, v: string): (r: Dict)
    ensures Get(r, k) == Some(v)
    ensures forall k' :: k' != k ==> Get(r, k') == Get(d, k')
    ensures Keys(r) == if HasKey(d, k) then Keys(d) else Keys(d) + [k]
  {
    if d == [] then [(k, v)]
    else if d[0].0 == k then [(k, v)] + d[1..]
    else
      var rest := Set(d[1..], k, v);
      assert ([d[0]] + rest)[1..] == rest;
      [d[0]] + rest
  }

  /** Assignment keeps keys unique. */
  lemma {:induction false} SetValid(d: Dict, k: string, v: string)
    requires Valid(d)
    ensures Valid(Set(d, k, v))
  {
    if d != [] && d[0].0 != k {
      SetValid(d[1..], k, v);
      var rest := Set(d[1..], k, v);
      KeysAt(rest);
      KeysAt(d[1..]);
      forall j | 0 <= j < |rest|
        ensures rest[j].0 != d[0].0
      {
        assert rest[j].0 in Keys(rest);
        assert forall i :: 0 <= i < |d| - 1 ==> d[1..][i] == d[i + 1];
        assert d[0].0 !in Keys(d[1..]);
      }
      assert [d[0]] + rest == Set(d, k, v);
    }
  }

  /** Lookup through `Get` agrees with the entry at a known position. */
  lemma GetAt(d: Dict, i: nat)
    requires Valid(d) && i < |d|
    ensures Get(d, d[i].0) == Some(d[i].1)
  {
    if i > 0 {
      assert d[1..][i - 1] == d[i];
      GetAt(d[1..], i - 1);
    }
  }

  /** Two valid dicts with the same keys in the same order and the same
      lookups are the same dict. */
  lemma {:induction false} SameEntries(a: Dict, b: Dict)
    requires Valid(a) && Valid(b) && Keys(a) == Keys(b)
    requires forall k :: Get(a, k) == Get(b, k)
    ensures a == b
  {
    KeysAt(a);
    KeysAt(b);
    forall i | 0 <= i < |a|
      ensures a[i] == b[i]
    {
      GetAt(a, i);
      GetAt(b, i);
    }
  }
}
