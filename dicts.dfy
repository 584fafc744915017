/** A Python `dict` with string keys: its entries in insertion order. */
module Dicts {
  import opened Wrappers

  type Dict<V> = seq<(string, V)>

  function Keys<V>(d: Dict<V>): seq<string> {
    seq(|d|, i requires 0 <= i < |d| => d[i].0)
  }

  predicate UniqueKeys<V>(d: Dict<V>) {
    forall i, j :: 0 <= i < j < |d| ==> d[i].0 != d[j].0
  }

  /** `d.get(k)`. */
  function Get<V>(d: Dict<V>, k: string): Option<V> {
    if d == [] then None
    else if d[0].0 == k then Some(d[0].1)
    else Get(d[1..], k)
  }

  /** `d[k] = v`: a present key keeps its place and takes the new value, a new
      key goes at the end. */
  function Put<V>(d: Dict<V>, k: string, v: V): Dict<V> {
    if d == [] then [(k, v)]
    else if d[0].0 == k then [(k, v)] + d[1..]
    else [d[0]] + Put(d[1..], k, v)
  }

  lemma {:induction false} GetSome<V>(d: Dict<V>, k: string)
    ensures Get(d, k).Some? <==> k in Keys(d)
  {
    if d != [] {
      GetSome(d[1..], k);
      assert Keys(d) == [d[0].0] + Keys(d[1..]);
    }
  }

  /** A value that `d.get(k)` finds is an entry of `d`. */
  lemma {:induction false} GetIn<V>(d: Dict<V>, k: string)
    ensures Get(d, k).Some? ==> (k, Get(d, k).value) in d
  {
    if d != [] && d[0].0 != k {
      GetIn(d[1..], k);
    }
  }

  /** After `d[k] = v`, `d.get(k)` is `v` and every other key reads as
      before; the key order is the old one, with `k` appended if it was new. */
  lemma PutProps<V>(d: Dict<V>, k: string, v: V)
    ensures Get(Put(d, k, v), k) == Some(v)
    ensures forall k' :: k' != k ==> Get(Put(d, k, v), k') == Get(d, k')
    ensures Keys(Put(d, k, v)) == if k in Keys(d) then Keys(d) else Keys(d) + [k]
    ensures UniqueKeys(d) ==> UniqueKeys(Put(d, k, v))
  {
    PutGet(d, k, v);
    forall k' | k' != k ensures Get(Put(d, k, v), k') == Get(d, k') {
      PutOther(d, k, v, k');
    }
    PutKeys(d, k, v);
    if UniqueKeys(d) {
      PutUnique(d, k, v);
    }
  }

  lemma {:induction false} PutGet<V>(d: Dict<V>, k: string, v: V)
    ensures Get(Put(d, k, v), k) == Some(v)
  {
    if d != [] && d[0].0 != k {
      PutGet(d[1..], k, v);
    }
  }

  lemma {:induction false} PutOther<V>(d: Dict<V>, k: string, v: V, k': string)
    requires k' != k
    ensures Get(Put(d, k, v), k') == Get(d, k')
  {
    if d != [] && d[0].0 != k {
      PutOther(d[1..], k, v, k');
    }
  }

  /** `d[k] = v` keeps every key in its place and appends `k` exactly when
      it was missing. */
  lemma {:induction false} PutShape<V>(d: Dict<V>, k: string, v: V)
    ensures |Put(d, k, v)| == |d| || |Put(d, k, v)| == |d| + 1
    ensures forall j :: 0 <= j < |d| ==> Put(d, k, v)[j].0 == d[j].0
    ensures |Put(d, k, v)| == |d| + 1 <==> k !in Keys(d)
    ensures |Put(d, k, v)| == |d| + 1 ==> Put(d, k, v)[|d|].0 == k
  {
    if d != [] {
      KeysCons(d);
      if d[0].0 != k {
        var q := Put(d[1..], k, v);
        PutShape(d[1..], k, v);
        assert Put(d, k, v) == [d[0]] + q;
        forall j | 0 <= j < |d| ensures Put(d, k, v)[j].0 == d[j].0 {
          if j > 0 {
            assert Put(d, k, v)[j] == q[j - 1];
            assert d[j] == d[1..][j - 1];
          }
        }
      }
    }
  }

  lemma KeysCons<V>(d: Dict<V>)
    requires d != []
    ensures Keys(d) == [d[0].0] + Keys(d[1..])
  {
  }

  lemma PutKeys<V>(d: Dict<V>, k: string, v: V)
    ensures Keys(Put(d, k, v)) == if k in Keys(d) then Keys(d) else Keys(d) + [k]
  {
    PutShape(d, k, v);
  }

  lemma PutUnique<V>(d: Dict<V>, k: string, v: V)
    requires UniqueKeys(d)
    ensures UniqueKeys(Put(d, k, v))
  {
    PutShape(d, k, v);
    var p := Put(d, k, v);
    forall i, j | 0 <= i < j < |p| ensures p[i].0 != p[j].0 {
      if j == |d| {
        assert p[i].0 == Keys(d)[i];
      }
    }
  }

  /** In a dict with each key once, `d.get` of an entry's key is its value. */
  lemma {:induction false} GetUnique<V>(d: Dict<V>, j: nat)
    requires UniqueKeys(d) && j < |d|
    ensures Get(d, d[j].0) == Some(d[j].1)
  {
    if j > 0 {
      assert d[0].0 != d[j].0;
      assert UniqueKeys(d[1..]);
      GetUnique(d[1..], j - 1);
    }
  }
}
