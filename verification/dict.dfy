/**
 * A Python `dict` with string keys. Python dicts remember insertion order:
 * assigning to an existing key keeps its position, a new key goes last.
 * The model keeps the keys in that order beside a map from key to value.
 */
module PyDict {
  import opened Common

  datatype Dict<V> = Dict(order: seq<string>, values: map<string, V>) {

    /** The order lists every key exactly once. */
    ghost predicate Valid() {
      && (forall i, j :: 0 <= i < j < |order| ==> order[i] != order[j])
      && (forall k :: k in values <==> k in order)
    }

    /** `d.get(k)`. */
    function Get(k: string): Option<V> {
      if k in values then Some(values[k]) else None
    }

    /** `d[k] = v`: an existing key keeps its position, a new key is appended. */
    function Put(k: string, v: V): (r: Dict<V>)
      requires Valid()
      ensures r.Valid()
      ensures r.Get(k) == Some(v)
      ensures forall k' :: k' != k ==> r.Get(k') == Get(k')
      ensures k in values ==> r.order == order
      ensures k !in values ==> r.order == order + [k]
    {
      if k in values then Dict(order, values[k := v])
      else Dict(order + [k], values[k := v])
    }

    /** The `(key, value)` pairs in iteration order (`d.items()`). */
    function Items(): (r: seq<(string, V)>)
      requires Valid()
      ensures |r| == |order|
      ensures forall i :: 0 <= i < |r| ==> r[i].0 == order[i] && Get(order[i]) == Some(r[i].1)
    {
      PairsOf(order)
    }

    /** The `(key, value)` pairs of the given keys, in that order. */
    function PairsOf(keys: seq<string>): (r: seq<(string, V)>)
      requires forall k :: k in keys ==> k in values
      ensures |r| == |keys|
      ensures forall i :: 0 <= i < |r| ==> r[i].0 == keys[i] && Get(keys[i]) == Some(r[i].1)
    {
      if keys == [] then [] else [(keys[0], values[keys[0]])] + PairsOf(keys[1..])
    }
  }

  /** After `d[k] = v` the keys are the old keys and `k`. */
  lemma PutKeys<V>(d: Dict<V>, k: string, v: V)
    requires d.Valid()
    ensures d.Put(k, v).values.Keys == d.values.Keys + {k}
  {
  }

  /** `{}`. */
  function Empty<V>(): (r: Dict<V>)
    ensures r.Valid() && r.order == []
  {
    Dict([], map[])
  }

  /** `dict(zip(keys, values))`: later pairs overwrite the value of an earlier equal key. */
  function FromPairs<V>(pairs: seq<(string, V)>): (r: Dict<V>)
    ensures r.Valid()
    ensures forall k :: k in r.values <==> exists i :: 0 <= i < |pairs| && pairs[i].0 == k
  {
    if pairs == [] then Empty()
    else
      var init := pairs[..|pairs| - 1];
      var last := pairs[|pairs| - 1];
      var r := FromPairs(init).Put(last.0, last.1);
      assert forall k :: (exists i :: 0 <= i < |pairs| && pairs[i].0 == k) ==> k in r.values by {
        forall k | exists i :: 0 <= i < |pairs| && pairs[i].0 == k
          ensures k in r.values
        {
          var i :| 0 <= i < |pairs| && pairs[i].0 == k;
          if i < |pairs| - 1 {
            assert init[i].0 == k;
          }
        }
      }
      r
  }

  /** In a dict built from pairs, each key maps to the value of the LAST pair with that key. */
  lemma {:induction false} FromPairsLastWins<V>(pairs: seq<(string, V)>, i: nat)
    requires i < |pairs|
    requires forall j :: i < j < |pairs| ==> pairs[j].0 != pairs[i].0
    ensures FromPairs(pairs).Get(pairs[i].0) == Some(pairs[i].1)
  {
    if i < |pairs| - 1 {
      FromPairsLastWins(pairs[..|pairs| - 1], i);
    }
  }

  /** The keys of a sequence of pairs, in order. */
  function Keys<V>(pairs: seq<(string, V)>): (r: seq<string>)
    ensures |r| == |pairs|
    ensures forall i :: 0 <= i < |pairs| ==> r[i] == pairs[i].0
  {
    if pairs == [] then [] else Keys(pairs[..|pairs| - 1]) + [pairs[|pairs| - 1].0]
  }

  /** With distinct keys, the iteration order is the order of the pairs. */
  lemma {:induction false} FromPairsOrder<V>(pairs: seq<(string, V)>)
    requires forall i, j :: 0 <= i < j < |pairs| ==> pairs[i].0 != pairs[j].0
    ensures FromPairs(pairs).order == Keys(pairs)
  {
    if pairs != [] {
      var init := pairs[..|pairs| - 1];
      var last := pairs[|pairs| - 1];
      FromPairsOrder(init);
      assert last.0 !in FromPairs(init).values by {
        forall i | 0 <= i < |init|
          ensures init[i].0 != last.0
        {
          assert init[i] == pairs[i];
        }
      }
    }
  }
}
