/** Python's `dict`: a finite map that remembers the order in which keys were
    first inserted. The workflow results, the previous-results view, the
    adaptation sets and the audit counters are all dictionaries of this kind. */
module Dicts {
  import opened Wrappers

  datatype Dict<K(==, !new), V> = Dict(keys: seq<K>, values: map<K, V>) {

    /** The keys are listed once each, and exactly the keys of the map are listed. */
    ghost predicate Valid() {
      (forall i, j :: 0 <= i < j < |keys| ==> keys[i] != keys[j])
      && (forall k :: k in values <==> k in keys)
    }

    /** `d.get(k)`. */
    function Get(k: K): Option<V> {
      if k in values then Some(values[k]) else None
    }

    /** `d[k] = v`: a new key goes to the end, an existing key keeps its place. */
    function Put(k: K, v: V): (d: Dict<K, V>)
      ensures Valid() ==> d.Valid()
    {
      Dict(if k in values then keys else keys + [k], values[k := v])
    }

    /** `d.values()`, in key order. */
    function Items(): (vs: seq<V>)
      requires Valid()
      ensures |vs| == |keys|
      ensures forall i :: 0 <= i < |keys| ==> vs[i] == values[keys[i]]
    {
      seq(|keys|, i requires 0 <= i < |keys| => values[keys[i]])
    }

    /** `d.items()`, in key order. */
    function Pairs(): seq<(K, V)> {
      PairsOf(keys, values)
    }
  }

  /** The keys of `ks` that `m` has, each with its value. */
  function PairsOf<K(==, !new), V>(ks: seq<K>, m: map<K, V>): seq<(K, V)>
    decreases |ks|
  {
    if ks == [] then []
    else (if ks[0] in m then [(ks[0], m[ks[0]])] else []) + PairsOf(ks[1..], m)
  }

  /** The items of a well-formed dictionary are its keys, in order, each with its value. */
  lemma {:induction false} PairsOfAll<K(!new), V>(ks: seq<K>, m: map<K, V>)
    requires forall k :: k in ks ==> k in m
    ensures |PairsOf(ks, m)| == |ks|
    ensures forall i :: 0 <= i < |ks| ==> PairsOf(ks, m)[i] == (ks[i], m[ks[i]])
    decreases |ks|
  {
    if ks != [] {
      PairsOfAll(ks[1..], m);
      assert forall i :: 1 <= i < |ks| ==> ks[i] == ks[1..][i - 1];
    }
  }

  /** `{}`. */
  function Empty<K(==, !new), V>(): (d: Dict<K, V>)
    ensures d.Valid() && d.keys == []
  {
    Dict([], map[])
  }

  /** The keys of `ks` that are not keys of `m`, in order. */
  function Fresh<K(==, !new), V>(ks: seq<K>, m: map<K, V>): seq<K>
    decreases |ks|
  {
    if ks == [] then []
    else if ks[0] in m then Fresh(ks[1..], m)
    else [ks[0]] + Fresh(ks[1..], m)
  }

  /** Puts the keys `ks` with their values from `vals` one after another. */
  function PutAll<K(==, !new), V>(d: Dict<K, V>, ks: seq<K>, vals: map<K, V>): (r: Dict<K, V>)
    requires forall k :: k in ks ==> k in vals
    ensures d.Valid() ==> r.Valid()
    decreases |ks|
  {
    if ks == [] then d else PutAll(d.Put(ks[0], vals[ks[0]]), ks[1..], vals)
  }

  /** `{**a, **b}`: the keys of `a` in their order, then the keys only `b` has;
      on a key both have, `b`'s value wins. */
  function Merge<K(==, !new), V>(a: Dict<K, V>, b: Dict<K, V>): (r: Dict<K, V>)
    requires a.Valid() && b.Valid()
    ensures r.Valid()
  {
    PutAll(a, b.keys, b.values)
  }

  /** `Fresh` keeps exactly the keys of `ks` that `m` lacks. */
  lemma {:induction false} FreshMembers<K(!new), V>(ks: seq<K>, m: map<K, V>, k: K)
    ensures k in Fresh(ks, m) <==> k in ks && k !in m
    decreases |ks|
  {
    if ks != [] {
      FreshMembers(ks[1..], m, k);
      assert k in ks <==> k == ks[0] || k in ks[1..];
    }
  }

  lemma {:induction false} FreshSkips<K(!new), V>(ks: seq<K>, m: map<K, V>, k: K, v: V)
    requires k !in ks
    ensures Fresh(ks, m[k := v]) == Fresh(ks, m)
    decreases |ks|
  {
    if ks != [] {
      FreshSkips(ks[1..], m, k, v);
    }
  }

  /** `PutAll` gives the keys of `ks` their values from `vals` and keeps the others. */
  lemma {:induction false} PutAllValues<K(!new), V>(d: Dict<K, V>, ks: seq<K>, vals: map<K, V>, k: K)
    requires forall k :: k in ks ==> k in vals
    ensures PutAll(d, ks, vals).Get(k) == if k in ks then Some(vals[k]) else d.Get(k)
    decreases |ks|
  {
    if ks != [] {
      PutAllValues(d.Put(ks[0], vals[ks[0]]), ks[1..], vals, k);
      assert k in ks <==> k == ks[0] || k in ks[1..];
    }
  }

  /** Dropping the head of a list of distinct keys leaves distinct keys without the head. */
  lemma TailDistinct<K>(ks: seq<K>)
    requires ks != []
    requires forall i, j :: 0 <= i < j < |ks| ==> ks[i] != ks[j]
    ensures forall i, j :: 0 <= i < j < |ks[1..]| ==> ks[1..][i] != ks[1..][j]
    ensures ks[0] !in ks[1..]
  {
    forall j | 0 <= j < |ks[1..]| ensures ks[1..][j] != ks[0] {
      assert ks[1..][j] == ks[j + 1];
    }
  }

  /** `PutAll` of distinct keys lists `d`'s keys first, then the keys `d` did not have. */
  lemma {:induction false} PutAllKeys<K(!new), V>(d: Dict<K, V>, ks: seq<K>, vals: map<K, V>)
    requires forall k :: k in ks ==> k in vals
    requires forall i, j :: 0 <= i < j < |ks| ==> ks[i] != ks[j]
    ensures PutAll(d, ks, vals).keys == d.keys + Fresh(ks, d.values)
    decreases |ks|
  {
    if ks != [] {
      var k0, rest := ks[0], ks[1..];
      TailDistinct(ks);
      var d' := d.Put(k0, vals[k0]);
      PutAllKeys(d', rest, vals);
      FreshSkips(rest, d.values, k0, vals[k0]);
      if k0 !in d.values {
        assert d'.keys + Fresh(rest, d.values) == d.keys + ([k0] + Fresh(rest, d.values));
      }
    }
  }

  /** The merge law for `{**a, **b}`. */
  lemma MergeSpec<K(!new), V>(a: Dict<K, V>, b: Dict<K, V>)
    requires a.Valid() && b.Valid()
    ensures forall k :: Merge(a, b).Get(k) == if k in b.values then b.Get(k) else a.Get(k)
    ensures Merge(a, b).keys == a.keys + Fresh(b.keys, a.values)
  {
    forall k ensures Merge(a, b).Get(k) == if k in b.values then b.Get(k) else a.Get(k) {
      PutAllValues(a, b.keys, b.values, k);
    }
    PutAllKeys(a, b.keys, b.values);
  }

  /** The number of times `k` occurs in `ks`. */
  function Occurrences<K(==)>(ks: seq<K>, k: K): (n: nat)
    ensures n == 0 <==> k !in ks
    decreases |ks|
  {
    if ks == [] then 0
    else
      var init := ks[..|ks| - 1];
      assert k in ks <==> k in init || k == ks[|ks| - 1];
      Occurrences(init, k) + if ks[|ks| - 1] == k then 1 else 0
  }

  /** `counts[k] = counts.get(k, 0) + 1` for each key of `ks` in turn: a counter whose keys are in the
      order first seen. */
  function Counts<K(==, !new)>(ks: seq<K>): Dict<K, nat>
    decreases |ks|
  {
    if ks == [] then Empty()
    else
      var d := Counts(ks[..|ks| - 1]);
      var k := ks[|ks| - 1];
      d.Put(k, d.Get(k).GetOr(0) + 1)
  }

  lemma {:induction false} CountsValid<K(!new)>(ks: seq<K>)
    ensures Counts(ks).Valid()
    decreases |ks|
  {
    if ks != [] {
      CountsValid(ks[..|ks| - 1]);
    }
  }

  /** The counter holds exactly the keys seen, each with its number of occurrences. */
  lemma {:induction false} CountsSpec<K(!new)>(ks: seq<K>, k: K)
    ensures Counts(ks).Get(k) == if k in ks then Some(Occurrences(ks, k)) else None
    decreases |ks|
  {
    if ks != [] {
      CountsSpec(ks[..|ks| - 1], k);
    }
  }
}
