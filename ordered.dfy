/** Python dicts keep insertion order: an association list whose keys are distinct. */
module Ordered {
  import opened Wrappers

  type Dict<K, V> = seq<(K, V)>

  predicate DistinctKeys<K(==), V>(d: Dict<K, V>)
  {
    forall i, j :: 0 <= i < j < |d| ==> d[i].0 != d[j].0
  }

  function Keys<K, V>(d: Dict<K, V>): (ks: seq<K>)
    ensures |ks| == |d| && forall i :: 0 <= i < |d| ==> ks[i] == d[i].0
  {
    seq(|d|, i requires 0 <= i < |d| => d[i].0)
  }

  /** Position of `k` in `d`, if present. */
  function Find<K(==), V>(d: Dict<K, V>, k: K): (r: Option<nat>)
    ensures r.Some? ==> r.value < |d| && d[r.value].0 == k
    ensures r.None? ==> forall i :: 0 <= i < |d| ==> d[i].0 != k
  {
    if d == [] then None
    else if d[|d| - 1].0 == k then Some(|d| - 1)
    else Find(d[..|d| - 1], k)
  }

  function Get<K(==), V>(d: Dict<K, V>, k: K): Option<V>
  {
    match Find(d, k)
    case Some(i) => Some(d[i].1)
    case None => None
  }

  /** `d[k] = v`: an existing key keeps its place and takes the new value, a new key goes last. */
  function Put<K(==), V>(d: Dict<K, V>, k: K, v: V): (r: Dict<K, V>)
    ensures Find(d, k).Some? ==> |r| == |d| && r[Find(d, k).value] == (k, v)
    ensures Find(d, k).None? ==> |r| == |d| + 1 && r[|d|] == (k, v)
    ensures forall j :: 0 <= j < |d| && d[j].0 != k ==> r[j] == d[j]
  {
    match Find(d, k)
    case Some(i) => d[i := (k, v)]
    case None => d + [(k, v)]
  }

  /** After `d[k] = v`, looking `k` up gives `v`, every other key is unaffected and keys stay distinct. */
  lemma PutGet<K, V>(d: Dict<K, V>, k: K, v: V, k': K)
    requires DistinctKeys(d)
    ensures DistinctKeys(Put(d, k, v))
    ensures Get(Put(d, k, v), k) == Some(v)
    ensures k' != k ==> Get(Put(d, k, v), k') == Get(d, k')
  {
    var r := Put(d, k, v);
    var i := if Find(d, k).Some? then Find(d, k).value else |d|;
    assert i < |r| && r[i] == (k, v);
    FindUnique(r, k, i);
    if k' != k {
      if Find(d, k').Some? {
        FindUnique(r, k', Find(d, k').value);
      } else {
        assert forall j :: 0 <= j < |r| ==> r[j].0 != k';
      }
    }
  }

  lemma FindUnique<K, V>(d: Dict<K, V>, k: K, i: nat)
    requires DistinctKeys(d) && i < |d| && d[i].0 == k
    ensures Find(d, k) == Some(i)
    decreases |d|
  {
    if i < |d| - 1 {
      FindUnique(d[..|d| - 1], k, i);
    }
  }

  /** A key is present exactly when the search finds it. */
  lemma KeysFind<K, V>(d: Dict<K, V>, k: K)
    ensures k in Keys(d) <==> Find(d, k).Some?
  {
    if k in Keys(d) {
      var i :| 0 <= i < |d| && Keys(d)[i] == k;
      assert d[i].0 == k;
    }
  }

  /** `d[k] = v` adds `k` to the keys when it is new and leaves them alone otherwise. */
  lemma PutKeys<K, V>(d: Dict<K, V>, k: K, v: V)
    ensures Find(d, k).Some? ==> Keys(Put(d, k, v)) == Keys(d)
    ensures Find(d, k).None? ==> Keys(Put(d, k, v)) == Keys(d) + [k]
  {
  }
}
