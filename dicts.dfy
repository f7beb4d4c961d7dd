/** Python's `dict`: a finite map that remembers the order in which its keys were
    first inserted (`keys()`, `items()` and `list(d)` follow that order). */
module Dicts {
  import opened Wrappers

  datatype Dict<K(==,!new), V> = Dict(keys: seq<K>, values: map<K, V>) {

    /** Every key appears once in the order, and the order lists exactly the keys. */
    predicate Valid()
    {
      && (forall i, j :: 0 <= i < j < |keys| ==> keys[i] != keys[j])
      && (forall k :: k in values ==> k in keys)
      && (forall k :: k in keys ==> k in values)
    }

    /** `k in d`. */
    predicate Contains(k: K)
    {
      k in values
    }

    /** `d.get(k)`. */
    function Get(k: K): Option<V>
    {
      if k in values then Some(values[k]) else None
    }

    /** `d[k] = v`: a new key goes to the end of the order, an existing key keeps its place. */
    function Put(k: K, v: V): (d: Dict<K, V>)
      requires Valid()
      ensures d.Valid()
      ensures d.Get(k) == Some(v)
      ensures forall k' :: k' != k ==> d.Get(k') == Get(k')
      ensures d.keys == if Contains(k) then keys else keys + [k]
    {
      if k in values then Dict(keys, values[k := v]) else Dict(keys + [k], values[k := v])
    }

    /** `list(d.items())`. */
    function Items(): (items: seq<(K, V)>)
      requires Valid()
      ensures |items| == |keys|
      ensures forall i :: 0 <= i < |items| ==> items[i].0 == keys[i] && Get(keys[i]) == Some(items[i].1)
    {
      seq(|keys|, i requires 0 <= i < |keys| => (keys[i], values[keys[i]]))
    }

    /** `d.update(other)`: the entries of `other` are put one by one, in its order. */
    function Update(other: Dict<K, V>): (d: Dict<K, V>)
      requires Valid() && other.Valid()
      ensures d.Valid()
      ensures forall k :: d.Get(k) == if other.Contains(k) then other.Get(k) else Get(k)
      ensures d.keys == WithNewKeys(keys, other.keys)
    {
      PutAll(other.keys, other.values)
    }

    /** Puts `ks[0]`, `ks[1]`, ... with their values in `vals`. */
    function PutAll(ks: seq<K>, vals: map<K, V>): (d: Dict<K, V>)
      requires Valid()
      requires forall k :: k in ks ==> k in vals
      ensures d.Valid()
      ensures forall k :: d.Get(k) == if k in ks then Some(vals[k]) else Get(k)
      ensures d.keys == WithNewKeys(keys, ks)
      decreases |ks|
    {
      if ks == [] then this
      else this.Put(ks[0], vals[ks[0]]).PutAll(ks[1..], vals)
    }
  }

  /** The empty dict `{}`. */
  function Empty<K(==,!new), V>(): (d: Dict<K, V>)
    ensures d.Valid() && d.keys == [] && forall k :: !d.Contains(k)
  {
    Dict([], map[])
  }

  /** The key order after the keys `ks` were inserted, in turn, into a dict with key
      order `keys`: a key that is not there yet is appended, one that is stays put. */
  function WithNewKeys<K(==,!new)>(keys: seq<K>, ks: seq<K>): seq<K>
    decreases |ks|
  {
    if ks == [] then keys
    else WithNewKeys(if ks[0] in keys then keys else keys + [ks[0]], ks[1..])
  }

  /** A sequence without repetitions has as many distinct elements as it has elements:
      a valid dict has `len(d)` keys in its order. */
  lemma {:induction false} DistinctCount<K>(s: seq<K>)
    requires forall i, j :: 0 <= i < j < |s| ==> s[i] != s[j]
    ensures |set k | k in s| == |s|
    decreases |s|
  {
    if s != [] {
      var p := s[..|s| - 1];
      var x := s[|s| - 1];
      DistinctCount(p);
      assert (set k | k in s) == (set k | k in p) + {x};
      assert x !in (set k | k in p);
    }
  }
}
