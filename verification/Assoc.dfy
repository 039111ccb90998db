/** Option, and Python's dict as a value: its entries in insertion order, one per key. */
module Assoc {

  datatype Option<+T> = None | Some(value: T)

  type Dict<K, V> = seq<(K, V)>

  ghost predicate Distinct<K, V>(d: Dict<K, V>) {
    forall i, j :: 0 <= i < j < |d| ==> d[i].0 != d[j].0
  }

  /** Where the key's entry is, or -1. */
  function Find<K(==), V>(d: Dict<K, V>, k: K): (i: int)
    ensures -1 <= i < |d|
    ensures i >= 0 ==> d[i].0 == k
    ensures i == -1 ==> forall j :: 0 <= j < |d| ==> d[j].0 != k
  {
    FindBelow(d, k, |d|)
  }

  function FindBelow<K(==), V>(d: Dict<K, V>, k: K, n: nat): (i: int)
    requires n <= |d|
    ensures -1 <= i < n
    ensures i >= 0 ==> d[i].0 == k
    ensures i == -1 ==> forall j :: 0 <= j < n ==> d[j].0 != k
  {
    if n == 0 then -1
    else if d[n - 1].0 == k then n - 1
    else FindBelow(d, k, n - 1)
  }

  predicate Has<K(==), V>(d: Dict<K, V>, k: K) {
    Find(d, k) >= 0
  }

  function Get<K(==), V>(d: Dict<K, V>, k: K): (v: Option<V>) {
    var i := Find(d, k);
    if i >= 0 then Some(d[i].1) else None
  }

  /** Assigning to a key: a present key keeps its position, a new one goes last. */
  function Put<K(==), V>(d: Dict<K, V>, k: K, v: V): (r: Dict<K, V>) {
    var i := Find(d, k);
    if i >= 0 then d[i := (k, v)] else d + [(k, v)]
  }

  /** Dropping a key, if present: the others keep their order. */
  function Del<K(==), V>(d: Dict<K, V>, k: K): (r: Dict<K, V>) {
    var i := Find(d, k);
    if i >= 0 then RemoveAt(d, i) else d
  }

  function RemoveAt<T>(s: seq<T>, n: nat): (r: seq<T>)
    requires n < |s|
    ensures |r| == |s| - 1
    ensures forall i :: 0 <= i < n ==> r[i] == s[i]
    ensures forall i :: n <= i < |r| ==> r[i] == s[i + 1]
  {
    s[..n] + s[n + 1..]
  }

  function Keys<K(==), V>(d: Dict<K, V>): (s: set<K>) {
    set i | 0 <= i < |d| :: d[i].0
  }

  lemma FindAt<K, V>(d: Dict<K, V>, i: nat)
    requires Distinct(d) && i < |d|
    ensures Find(d, d[i].0) == i
  {
  }

  lemma InKeys<K, V>(d: Dict<K, V>, k: K)
    ensures k in Keys(d) <==> Find(d, k) >= 0
  {
    if Find(d, k) >= 0 { assert d[Find(d, k)].0 == k; }
  }

  lemma PutKeys<K, V>(d: Dict<K, V>, k: K, v: V)
    requires Distinct(d)
    ensures Distinct(Put(d, k, v)) && Keys(Put(d, k, v)) == Keys(d) + {k}
    ensures Get(Put(d, k, v), k) == Some(v)
    ensures forall j :: j != k ==> Get(Put(d, k, v), j) == Get(d, j)
  {
    var r := Put(d, k, v);
    forall j ensures j in Keys(r) <==> j in Keys(d) || j == k {
      InKeys(r, j);
      InKeys(d, j);
      var i := Find(d, k);
      if Find(d, j) >= 0 { assert r[Find(d, j)].0 == j; }
      if j == k { assert r[if i >= 0 then i else |d|].0 == j; }
    }
    forall j ensures Get(r, j) == if j == k then Some(v) else Get(d, j) {
      var i := Find(r, j);
      if i >= 0 {
        FindAt(r, i);
        if j != k { FindAt(d, i); }
      } else {
        InKeys(r, j);
        InKeys(d, j);
      }
    }
  }

  lemma DelDistinct<K, V>(d: Dict<K, V>, k: K)
    requires Distinct(d)
    ensures Distinct(Del(d, k)) && Get(Del(d, k), k) == None
  {
    var i, r := Find(d, k), Del(d, k);
  }

  /** Deleting one key leaves every other key's value alone. */
  lemma DelOther<K, V>(d: Dict<K, V>, k: K, j: K)
    requires Distinct(d) && j != k
    ensures Get(Del(d, k), j) == Get(d, j)
  {
    var i, r, n := Find(d, k), Del(d, k), Find(d, j);
    if i >= 0 {
      DelDistinct(d, k);
      if n >= 0 {
        FindAt(r, if n < i then n else n - 1);
      }
    }
  }

  /** One entry per key: as many entries as keys. */
  lemma {:induction false} KeyCount<K, V>(d: Dict<K, V>)
    requires Distinct(d)
    ensures |Keys(d)| == |d|
  {
    if d != [] {
      var n := |d| - 1;
      KeyCount(d[..n]);
      assert Keys(d) == Keys(d[..n]) + {d[n].0} by {
        assert d == d[..n] + [d[n]];
      }
      assert d[n].0 !in Keys(d[..n]);
    }
  }
}
