/** Insertion-ordered dictionaries, as the Python code relies on them.

    Python's `dict` iterates its keys in the order they were first
    inserted; several operations of the analyser depend on that order
    (the measure-group scan, the order of repeated-measure lists, the
    tie order of count lists).  A `Dict` keeps that order explicitly. */
module Dicts {

  datatype Dict<K(==,!new), V> = Dict(keys: seq<K>, items: map<K, V>) {

    /** The keys are listed once each and are exactly the keys of `items`. */
    ghost predicate Valid() {
      && (forall i, j :: 0 <= i < j < |keys| ==> keys[i] != keys[j])
      && (forall k :: k in items <==> k in keys)
    }

    /** `d[k] = v`: a new key goes to the end of the order, an existing one keeps its place. */
    function Put(k: K, v: V): (d: Dict<K, V>)
      ensures d.items == items[k := v]
      ensures d.keys == if k in items then keys else keys + [k]
      ensures Valid() ==> d.Valid()
    {
      if k in items then Dict(keys, items[k := v]) else Dict(keys + [k], items[k := v])
    }

    /** `d.get(k, default)`. */
    function Get(k: K, default: V): V {
      if k in items then items[k] else default
    }

    /** `list(d.items())`, in key order. */
    function Entries(): (es: seq<(K, V)>)
      requires Valid()
      ensures |es| == |keys|
      ensures forall i :: 0 <= i < |keys| ==> es[i] == (keys[i], items[keys[i]])
    {
      seq(|keys|, i requires 0 <= i < |keys| => (keys[i], items[keys[i]]))
    }

    /** `list(d.values())`, in key order. */
    function Values(): (vs: seq<V>)
      requires Valid()
      ensures |vs| == |keys|
      ensures forall i :: 0 <= i < |keys| ==> vs[i] == items[keys[i]]
    {
      seq(|keys|, i requires 0 <= i < |keys| => items[keys[i]])
    }
  }

  function Empty<K(==,!new), V>(): (d: Dict<K, V>)
    ensures d.Valid() && d.keys == [] && d.items == map[]
  {
    Dict([], map[])
  }

  /** `{k: v for k in keys}` over a list of keys without repeats, in list order. */
  function FromKeys<K(!new), V>(keys: seq<K>, v: V): (d: Dict<K, V>)
    requires forall i, j :: 0 <= i < j < |keys| ==> keys[i] != keys[j]
    ensures d.Valid() && d.keys == keys
    ensures forall k :: k in d.items <==> k in keys
    ensures forall k :: k in d.items ==> d.items[k] == v
  {
    Dict(keys, map k | k in keys :: v)
  }

  /** `d.setdefault(k, []).append(v)`: the reverse-index update used throughout the analyser. */
  function AppendTo<K(==,!new), V>(d: Dict<K, seq<V>>, k: K, v: V): Dict<K, seq<V>> {
    d.Put(k, d.Get(k, []) + [v])
  }

  /** What `AppendTo` changes: the list of `k` grows by `v`; every other key keeps its list. */
  lemma AppendToSpec<K(!new), V>(d: Dict<K, seq<V>>, k: K, v: V)
    ensures var r := AppendTo(d, k, v);
            && k in r.items && r.items[k] == d.Get(k, []) + [v]
            && (forall k' :: k' != k ==> (k' in r.items <==> k' in d.items))
            && (forall k' :: k' != k && k' in d.items ==> r.items[k'] == d.items[k'])
            && (d.Valid() ==> r.Valid())
  {
  }
}
