/** Python's `dict` as the handlers use it: a table whose keys keep the order
    in which they were first inserted (so `keys()` has an order) and whose
    `get(key, default)` falls back to a default. */
module Dict {

  datatype Dict<K(==, !new), V> = Dict(order: seq<K>, entries: map<K, V>)
  {
    /** Every key is listed once in `order`, and `order` lists exactly the keys. */
    ghost predicate Valid()
    {
      && (forall i, j :: 0 <= i < j < |order| ==> order[i] != order[j])
      && (forall k :: k in entries <==> k in order)
    }

    /** `d.get(key, default)`. */
    function Get(key: K, default: V): (v: V)
    {
      if key in entries then entries[key] else default
    }

    /** `d.keys()`, in insertion order. */
    function Keys(): seq<K>
    {
      order
    }
  }

  function Empty<K(==, !new), V>(): (d: Dict<K, V>)
    ensures d.Valid() && d.order == [] && d.entries == map[]
  {
    Dict([], map[])
  }

  /** `d[key] = value`: a new key goes last, an existing key keeps its place
      and gets the new value. */
  function Insert<K(==, !new), V>(d: Dict<K, V>, key: K, value: V): (r: Dict<K, V>)
    requires d.Valid()
    ensures r.Valid()
    ensures r.entries.Keys == d.entries.Keys + {key} && r.entries[key] == value
    ensures forall k :: k in d.entries && k != key ==> r.entries[k] == d.entries[k]
    ensures r.order == if key in d.entries then d.order else d.order + [key]
  {
    if key in d.entries then Dict(d.order, d.entries[key := value])
    else Dict(d.order + [key], d.entries[key := value])
  }

  function KeysOf<K, V>(pairs: seq<(K, V)>): (ks: seq<K>)
    ensures |ks| == |pairs| && forall i :: 0 <= i < |pairs| ==> ks[i] == pairs[i].0
  {
    if pairs == [] then [] else KeysOf(pairs[..|pairs| - 1]) + [pairs[|pairs| - 1].0]
  }

  /** The dict built by the literal `{k0: v0, k1: v1, ...}`. */
  function FromEntries<K(==, !new), V>(pairs: seq<(K, V)>): (d: Dict<K, V>)
    ensures d.Valid()
  {
    if pairs == [] then Empty()
    else
      var last := pairs[|pairs| - 1];
      var d' := FromEntries(pairs[..|pairs| - 1]);
      assert forall i :: 0 <= i < |pairs| - 1 ==> pairs[..|pairs| - 1][i] == pairs[i];
      Insert(d', last.0, last.1)
  }

  predicate DistinctKeys<K(==), V>(pairs: seq<(K, V)>)
  {
    forall i, j :: 0 <= i < j < |pairs| ==> pairs[i].0 != pairs[j].0
  }

  /** Dropping the last pair keeps the keys distinct, and the last key is
      none of the earlier ones. */
  lemma {:induction false} DistinctKeysInit<K, V>(pairs: seq<(K, V)>)
    requires DistinctKeys(pairs) && pairs != []
    ensures DistinctKeys(pairs[..|pairs| - 1])
    ensures forall i :: 0 <= i < |pairs| - 1 ==> pairs[i].0 != pairs[|pairs| - 1].0
  {
    var init := pairs[..|pairs| - 1];
    forall i, j | 0 <= i < j < |init| ensures init[i].0 != init[j].0 {
      assert init[i] == pairs[i] && init[j] == pairs[j];
    }
  }

  /** A literal with distinct keys lists them in the order written. */
  lemma {:induction false} FromDistinctEntriesKeys<K(!new), V>(pairs: seq<(K, V)>)
    requires DistinctKeys(pairs)
    ensures FromEntries(pairs).Keys() == KeysOf(pairs)
  {
    if pairs != [] {
      var n := |pairs| - 1;
      var init := pairs[..n];
      DistinctKeysInit(pairs);
      FromDistinctEntriesKeys(init);
      var d' := FromEntries(init);
      assert pairs[n].0 !in d'.entries by {
        forall i | 0 <= i < n ensures d'.order[i] != pairs[n].0 {
          assert d'.order[i] == init[i].0 == pairs[i].0;
        }
      }
      assert FromEntries(pairs).order == d'.order + [pairs[n].0];
    }
  }

  /** A literal with distinct keys maps each key to the value written beside it. */
  lemma {:induction false} FromDistinctEntries<K(!new), V>(pairs: seq<(K, V)>)
    requires DistinctKeys(pairs)
    ensures FromEntries(pairs).Keys() == KeysOf(pairs)
    ensures forall i :: 0 <= i < |pairs| ==> FromEntries(pairs).entries[pairs[i].0] == pairs[i].1
  {
    FromDistinctEntriesKeys(pairs);
    if pairs != [] {
      var n := |pairs| - 1;
      var init := pairs[..n];
      DistinctKeysInit(pairs);
      FromDistinctEntries(init);
      var d' := FromEntries(init);
      var d := FromEntries(pairs);
      assert d == Insert(d', pairs[n].0, pairs[n].1);
      forall i | 0 <= i < n
        ensures pairs[i].0 in d.entries && d.entries[pairs[i].0] == pairs[i].1
      {
        assert init[i] == pairs[i];
        assert pairs[i].0 in d'.entries && d'.entries[pairs[i].0] == pairs[i].1;
        assert pairs[i].0 != pairs[n].0;
      }
    }
  }

  /** Valid dicts with the same key order and the same value at every key
      are equal. */
  lemma SameOrderSameEntries<K(!new), V>(e: Dict<K, V>, d: Dict<K, V>)
    requires e.Valid() && d.Valid() && e.order == d.order
    requires forall i :: 0 <= i < |d.order| ==> e.entries[d.order[i]] == d.entries[d.order[i]]
    ensures e == d
  {
    forall k | k in d.entries
      ensures k in e.entries && e.entries[k] == d.entries[k]
    {
      var i :| 0 <= i < |d.order| && d.order[i] == k;
    }
    assert e.entries == d.entries;
  }

  /** Two valid dicts with the keys of `pairs`, in order, that both map
      each key to its value in `pairs` are the same dict. */
  lemma SameEntries<K(!new), V>(pairs: seq<(K, V)>, e: Dict<K, V>, d: Dict<K, V>)
    requires e.Valid() && d.Valid() && e.Keys() == KeysOf(pairs) && d.Keys() == KeysOf(pairs)
    requires forall i :: 0 <= i < |pairs| ==> pairs[i].0 in e.entries && e.entries[pairs[i].0] == pairs[i].1
    requires forall i :: 0 <= i < |pairs| ==> pairs[i].0 in d.entries && d.entries[pairs[i].0] == pairs[i].1
    ensures e == d
  {
    var ks := KeysOf(pairs);
    assert e.order == ks && d.order == ks;
    forall i | 0 <= i < |d.order|
      ensures e.entries[d.order[i]] == d.entries[d.order[i]]
    {
      assert d.order[i] == pairs[i].0;
    }
    SameOrderSameEntries(e, d);
  }

  /** The literal with distinct keys is the only valid dict listing its keys
      in order with the values written beside them. */
  lemma FromDistinctEntriesUnique<K(!new), V>(pairs: seq<(K, V)>, d: Dict<K, V>)
    requires DistinctKeys(pairs) && d.Valid() && d.Keys() == KeysOf(pairs)
    requires forall i :: 0 <= i < |pairs| ==> pairs[i].0 in d.entries && d.entries[pairs[i].0] == pairs[i].1
    ensures FromEntries(pairs) == d
  {
    FromDistinctEntries(pairs);
    SameEntries(pairs, FromEntries(pairs), d);
  }
}
