/** Small facts about sequences, stated once for any element type so that
    proofs about long sequences of values need not unfold those values. */
module Seqs {

  lemma Assoc<T>(a: seq<T>, b: seq<T>, c: seq<T>)
    ensures a + (b + c) == (a + b) + c
  {
  }

  lemma SplitAt<T>(s: seq<T>, k: nat)
    requires k <= |s|
    ensures s == s[..k] + s[k..]
  {
  }

  lemma Snoc<T>(s: seq<T>, j: nat)
    requires j < |s|
    ensures s[..j + 1] == s[..j] + [s[j]]
  {
  }

  lemma AppendIndex<T>(a: seq<T>, b: seq<T>, k: nat)
    requires k < |a| + |b|
    ensures (a + b)[k] == if k < |a| then a[k] else b[k - |a|]
  {
  }

  lemma ConsTail<T>(x: T, rest: seq<T>)
    ensures ([x] + rest)[1..] == rest
  {
  }

  lemma TailIndex<T>(s: seq<T>, k: nat)
    requires k + 1 < |s|
    ensures s[1..][k] == s[k + 1]
  {
  }

  lemma TakeIndex<T>(s: seq<T>, n: nat, k: nat)
    requires k < n <= |s|
    ensures s[..n][k] == s[k]
  {
  }

  lemma PrefixOf<T>(x: seq<T>, y: seq<T>)
    ensures |x| <= |x + y| && (x + y)[..|x|] == x
  {
  }

  lemma MiddleIndex<T>(a: seq<T>, b: seq<T>, c: seq<T>, i: nat)
    requires i < |b|
    ensures |a| + i < |a + b + c| && (a + b + c)[|a| + i] == b[i]
  {
  }

  lemma LastIndex<T>(a: seq<T>, b: seq<T>, i: nat)
    requires i < |b|
    ensures |a| + i < |a + b| && (a + b)[|a| + i] == b[i]
  {
  }

  /** `[f(x) for x in s]`. */
  function Map<T, U>(s: seq<T>, f: T -> U): (r: seq<U>)
    ensures |r| == |s|
    ensures forall i :: 0 <= i < |s| ==> r[i] == f(s[i])
    decreases |s|
  {
    if s == [] then []
    else
      assert forall i :: 0 <= i < |s| - 1 ==> s[..|s| - 1][i] == s[i];
      Map(s[..|s| - 1], f) + [f(s[|s| - 1])]
  }

  lemma MapSnoc<T, U>(s: seq<T>, f: T -> U, i: nat)
    requires i < |s|
    ensures Map(s[..i + 1], f) == Map(s[..i], f) + [f(s[i])]
  {
    assert s[..i + 1][..i] == s[..i];
  }

  /** Some element of `s` maps to `u`. */
  predicate Exists<T, U(==)>(s: seq<T>, f: T -> U, u: U) {
    exists i :: 0 <= i < |s| && f(s[i]) == u
  }

  /** An element of a non-empty sequence is one of the prefix or the last. */
  lemma ExistsSnoc<T, U>(s: seq<T>, f: T -> U, u: U)
    requires s != []
    ensures Exists(s, f, u) <==> Exists(s[..|s| - 1], f, u) || f(s[|s| - 1]) == u
  {
    var n := |s| - 1;
    if Exists(s, f, u) && f(s[n]) != u {
      var i :| 0 <= i < |s| && f(s[i]) == u;
      assert s[..n][i] == s[i];
    }
    if Exists(s[..n], f, u) {
      var i :| 0 <= i < n && f(s[..n][i]) == u;
      assert s[i] == s[..n][i];
    }
  }
}
