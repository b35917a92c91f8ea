/** Python's insertion-ordered `dict` as a sequence of key/value pairs:
    assigning to a present key updates its value in place, assigning to a
    new key appends it. The functions carry no contracts of their own; what
    they mean is stated by the lemmas below them. */
module Dicts {
  import opened Wrappers

  function Keys<K, V>(d: seq<(K, V)>): (r: seq<K>)
    ensures |r| == |d|
    ensures forall i :: 0 <= i < |d| ==> r[i] == d[i].0
  {
    if d == [] then [] else [d[0].0] + Keys(d[1..])
  }

  /** No key occurs twice. */
  predicate DistinctKeys<K(==,!new), V>(d: seq<(K, V)>) {
    forall i, j :: 0 <= i < j < |d| ==> d[i].0 != d[j].0
  }

  /** `d.get(k)`. */
  function Get<K(==,!new), V>(d: seq<(K, V)>, k: K): Option<V> {
    if d == [] then None else if d[0].0 == k then Some(d[0].1) else Get(d[1..], k)
  }

  /** `k in d`. */
  predicate Has<K(==,!new), V>(d: seq<(K, V)>, k: K) {
    Get(d, k).Some?
  }

  /** `d[k] = v`. */
  function Put<K(==,!new), V>(d: seq<(K, V)>, k: K, v: V): seq<(K, V)> {
    if d == [] then [(k, v)]
    else if d[0].0 == k then [(k, v)] + d[1..]
    else [d[0]] + Put(d[1..], k, v)
  }

  /** A key is present exactly when it is among the keys, and its value
      is the one paired with it. */
  lemma {:induction false} GetKeys<K(!new), V>(d: seq<(K, V)>, k: K)
    ensures Has(d, k) <==> k in Keys(d)
    ensures Has(d, k) ==> (k, Get(d, k).value) in d
  {
    if d != [] {
      GetKeys(d[1..], k);
      assert Keys(d) == [d[0].0] + Keys(d[1..]);
    }
  }

  /** After `d[k] = v`, `k` maps to `v` and every other key to what it
      mapped to before. */
  lemma {:induction false} GetPut<K(!new), V>(d: seq<(K, V)>, k: K, v: V, k': K)
    ensures Get(Put(d, k, v), k') == if k' == k then Some(v) else Get(d, k')
  {
    if d != [] && d[0].0 != k {
      GetPut(d[1..], k, v, k');
      assert Put(d, k, v)[1..] == Put(d[1..], k, v);
    } else if d != [] {
      assert Put(d, k, v)[1..] == d[1..];
    }
  }

  /** An assignment keeps the key order; a new key goes last. */
  lemma {:induction false} PutKeys<K(!new), V>(d: seq<(K, V)>, k: K, v: V)
    ensures Keys(Put(d, k, v)) == if k in Keys(d) then Keys(d) else Keys(d) + [k]
  {
    if d != [] {
      assert Keys(d) == [d[0].0] + Keys(d[1..]);
      if d[0].0 != k {
        PutKeys(d[1..], k, v);
        assert Keys(Put(d, k, v)) == [d[0].0] + Keys(Put(d[1..], k, v));
      } else {
        assert Keys(Put(d, k, v)) == [k] + Keys(d[1..]);
      }
    }
  }

  /** Every pair after `d[k] = v` is the new one or was already there. */
  lemma {:induction false} PutPairs<K(!new), V>(d: seq<(K, V)>, k: K, v: V, p: (K, V))
    requires p in Put(d, k, v)
    ensures p == (k, v) || p in d
  {
    if d != [] && d[0].0 != k {
      if p != d[0] { PutPairs(d[1..], k, v, p); }
    }
  }

  /** Keys stay distinct. */
  lemma PutDistinct<K(!new), V>(d: seq<(K, V)>, k: K, v: V)
    requires DistinctKeys(d)
    ensures DistinctKeys(Put(d, k, v))
  {
    var r := Put(d, k, v);
    PutKeys(d, k, v);
    assert forall i :: 0 <= i < |r| ==> r[i].0 == Keys(r)[i];
    assert forall i :: 0 <= i < |d| ==> d[i].0 == Keys(d)[i];
  }

  /** Assigning a new key appends the pair. */
  lemma {:induction false} PutNewAppends<K(!new), V>(d: seq<(K, V)>, k: K, v: V)
    requires k !in Keys(d)
    ensures Put(d, k, v) == d + [(k, v)]
    ensures Keys(Put(d, k, v)) == Keys(d) + [k]
  {
    if d != [] {
      assert Keys(d) == [d[0].0] + Keys(d[1..]);
      PutNewAppends(d[1..], k, v);
    }
    KeysAppend(d, [(k, v)]);
  }

  /** The same, for a key `d.get` does not find. */
  lemma PutFresh<K(!new), V>(d: seq<(K, V)>, k: K, v: V)
    requires !Has(d, k)
    ensures Put(d, k, v) == d + [(k, v)]
  {
    GetKeys(d, k);
    PutNewAppends(d, k, v);
  }

  /** Looking a key up in two dicts laid end to end finds it in the first
      one when it is there. */
  lemma {:induction false} GetAppend<K(!new), V>(a: seq<(K, V)>, b: seq<(K, V)>, k: K)
    ensures Get(a + b, k) == if Has(a, k) then Get(a, k) else Get(b, k)
  {
    if a == [] {
      assert a + b == b;
    } else {
      assert (a + b)[1..] == a[1..] + b;
      GetAppend(a[1..], b, k);
    }
  }

  lemma {:induction false} KeysAppend<K, V>(a: seq<(K, V)>, b: seq<(K, V)>)
    ensures Keys(a + b) == Keys(a) + Keys(b)
  {
    assert |Keys(a + b)| == |Keys(a) + Keys(b)|;
    forall i | 0 <= i < |a + b| ensures Keys(a + b)[i] == (Keys(a) + Keys(b))[i] {
      if i < |a| { assert (a + b)[i] == a[i]; } else { assert (a + b)[i] == b[i - |a|]; }
    }
  }

  /** In a dict without repeated keys, a pair it holds is what `get` finds. */
  lemma {:induction false} GetDistinct<K(!new), V>(d: seq<(K, V)>, k: K, v: V)
    requires DistinctKeys(d) && (k, v) in d
    ensures Get(d, k) == Some(v)
  {
    if d[0] != (k, v) {
      assert (k, v) in d[1..];
      var i :| 0 <= i < |d[1..]| && d[1..][i] == (k, v);
      assert d[i + 1] == (k, v);
      assert d[0].0 != k;
      GetDistinct(d[1..], k, v);
    }
  }
}
