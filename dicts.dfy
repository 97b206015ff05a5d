// Python dictionaries keep their keys in insertion order; the program relies on
// that order (dict iteration, `max` over a dict, JSON output). A dictionary is
// modelled as its sequence of (key, value) entries.
module Dicts {
  import opened Wrappers
  import opened Seqs

  function Keys<K, V>(es: seq<(K, V)>): (r: seq<K>)
    ensures |r| == |es|
    ensures forall i :: 0 <= i < |es| ==> r[i] == es[i].0
  {
    if es == [] then [] else [es[0].0] + Keys(es[1..])
  }

  function Values<K, V>(es: seq<(K, V)>): (r: seq<V>)
    ensures |r| == |es|
    ensures forall i :: 0 <= i < |es| ==> r[i] == es[i].1
  {
    seq(|es|, i requires 0 <= i < |es| => es[i].1)
  }

  /** `d.get(k)`: the value stored under the first entry with key `k`. */
  function Lookup<K(==), V>(es: seq<(K, V)>, k: K): (r: Option<V>)
    ensures r.None? <==> k !in Keys(es)
    ensures r.Some? ==> exists i :: 0 <= i < |es| && es[i] == (k, r.value)
  {
    if es == [] then None
    else if es[0].0 == k then Some(es[0].1)
    else
      var r := Lookup(es[1..], k);
      assert Keys(es) == [es[0].0] + Keys(es[1..]);
      assert r.Some? ==> exists i :: 0 <= i < |es[1..]| && es[1..][i] == (k, r.value);
      r
  }

  /** The entry at `i` is the one `get` finds when no earlier entry has its key. */
  lemma {:induction false} LookupAt<K, V>(es: seq<(K, V)>, i: nat, k: K, v: V)
    requires i < |es| && es[i] == (k, v)
    requires forall j :: 0 <= j < i ==> es[j].0 != k
    ensures Lookup(es, k) == Some(v)
  {
    if i > 0 {
      LookupAt(es[1..], i - 1, k, v);
    }
  }

  /** `d[k] = v`: replaces the value of an existing key in place, or adds the
      key at the end. */
  function Put<K(==), V>(es: seq<(K, V)>, k: K, v: V): (r: seq<(K, V)>)
    ensures Lookup(r, k) == Some(v)
  {
    if es == [] then [(k, v)]
    else if es[0].0 == k then [(k, v)] + es[1..]
    else [es[0]] + Put(es[1..], k, v)
  }

  /** Assigning to a key present keeps the key order; a new key goes last. */
  lemma {:induction false} PutKeys<K, V>(es: seq<(K, V)>, k: K, v: V)
    ensures k in Keys(es) ==> Keys(Put(es, k, v)) == Keys(es)
    ensures k !in Keys(es) ==> Keys(Put(es, k, v)) == Keys(es) + [k]
  {
    if es == [] {
      assert Put(es, k, v) == [(k, v)];
    } else if es[0].0 == k {
      assert Put(es, k, v) == [(k, v)] + es[1..];
    } else {
      var rest := Put(es[1..], k, v);
      var tail := Keys(es[1..]);
      PutKeys(es[1..], k, v);
      assert Put(es, k, v) == [es[0]] + rest;
      assert es == [es[0]] + es[1..];
      KeysCons(es[0], es[1..]);
      KeysCons(es[0], rest);
      assert k in Keys(es) <==> k in tail;
      if k !in tail {
        AppendTwo([es[0].0], tail, [k]);
      }
    }
  }

  lemma KeysCons<K, V>(e: (K, V), es: seq<(K, V)>)
    ensures Keys([e] + es) == [e.0] + Keys(es)
  {
    assert ([e] + es)[1..] == es;
  }

  /** After a put, the keys are the old keys and the key put. */
  lemma PutKeysIn<K, V>(es: seq<(K, V)>, k: K, v: V)
    ensures forall y :: y in Keys(Put(es, k, v)) <==> y in Keys(es) || y == k
  {
    PutKeys(es, k, v);
  }

  lemma {:induction false} PutOther<K, V>(es: seq<(K, V)>, k: K, v: V, other: K)
    requires other != k
    ensures Lookup(Put(es, k, v), other) == Lookup(es, other)
  {
    if es != [] && es[0].0 != k {
      PutOther(es[1..], k, v, other);
    }
  }

  /** No key occurs twice. */
  predicate DistinctKeys<K(==), V>(es: seq<(K, V)>)
  {
    forall i, j :: 0 <= i < j < |es| ==> es[i].0 != es[j].0
  }

  lemma PutDistinct<K, V>(es: seq<(K, V)>, k: K, v: V)
    requires DistinctKeys(es)
    ensures DistinctKeys(Put(es, k, v))
  {
    var r := Put(es, k, v);
    PutKeys(es, k, v);
    forall i, j | 0 <= i < j < |r| ensures r[i].0 != r[j].0 {
      assert Keys(r)[i] == r[i].0 && Keys(r)[j] == r[j].0;
      if j == |es| {
        assert k !in Keys(es);
        assert Keys(es)[i] == es[i].0;
      } else {
        assert Keys(es)[i] == es[i].0 && Keys(es)[j] == es[j].0;
      }
    }
  }
}
