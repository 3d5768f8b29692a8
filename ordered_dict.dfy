/** Python dictionaries as the source uses them: keys kept in insertion
    order, assignment to an existing key replacing its value in place. */
module OrderedDict {
  import opened Wrappers

  type Dict<K, V> = seq<(K, V)>

  function Keys<K(==, !new), V>(d: Dict<K, V>): (ks: seq<K>)
    ensures |ks| == |d|
    ensures forall i :: 0 <= i < |d| ==> ks[i] == d[i].0
  {
    if |d| == 0 then [] else [d[0].0] + Keys(d[1..])
  }

  predicate UniqueKeys<K(==, !new), V>(d: Dict<K, V>)
  {
    forall i, j :: 0 <= i < j < |d| ==> d[i].0 != d[j].0
  }

  /** `d.get(k)` */
  function Get<K(==, !new), V>(d: Dict<K, V>, k: K): (r: Option<V>)
    ensures r.None? <==> k !in Keys(d)
    ensures r.Some? ==> (k, r.value) in d
  {
    if |d| == 0 then None
    else if d[0].0 == k then Some(d[0].1)
    else Get(d[1..], k)
  }

  /** `d[k] = v`: an existing key keeps its place, a new one goes last. */
  function Put<K(==, !new), V>(d: Dict<K, V>, k: K, v: V): (r: Dict<K, V>)
    ensures Get(r, k) == Some(v)
    ensures forall j :: j != k ==> Get(r, j) == Get(d, j)
  {
    if |d| == 0 then [(k, v)]
    else if d[0].0 == k then
      assert ([(k, v)] + d[1..])[1..] == d[1..];
      [(k, v)] + d[1..]
    else
      var rest := Put(d[1..], k, v);
      assert ([d[0]] + rest)[1..] == rest;
      [d[0]] + rest
  }

  /** Assignment keeps the order of keys, appending a new one. */
  lemma {:induction false} PutKeys<K(!new), V>(d: Dict<K, V>, k: K, v: V)
    ensures k in Keys(d) ==> Keys(Put(d, k, v)) == Keys(d)
    ensures k !in Keys(d) ==> Keys(Put(d, k, v)) == Keys(d) + [k]
    decreases |d|
  {
    if |d| > 0 {
      assert Keys(d) == [d[0].0] + Keys(d[1..]);
      if d[0].0 == k {
        assert ([(k, v)] + d[1..])[1..] == d[1..];
      } else {
        var rest := Put(d[1..], k, v);
        PutKeys(d[1..], k, v);
        assert ([d[0]] + rest)[1..] == rest;
        assert Keys([d[0]] + rest) == [d[0].0] + Keys(rest);
        assert k in Keys(d) <==> k in Keys(d[1..]);
      }
    }
  }

  /** Assignment keeps a dict's keys unique. */
  lemma PutUnique<K(!new), V>(d: Dict<K, V>, k: K, v: V)
    requires UniqueKeys(d)
    ensures UniqueKeys(Put(d, k, v))
  {
    PutKeys(d, k, v);
    var r := Put(d, k, v);
    var ks := Keys(r);
    forall i, j | 0 <= i < j < |r|
      ensures r[i].0 != r[j].0
    {
      assert r[i].0 == ks[i] && r[j].0 == ks[j];
      if k in Keys(d) || j < |d| {
        assert ks[i] == Keys(d)[i] && ks[j] == Keys(d)[j];
      } else {
        assert ks[j] == k && ks[i] == Keys(d)[i];
      }
    }
  }

  /** `del d[k]`: the entry at k's place goes, the others keep their order;
      nothing happens when k is absent. */
  function Remove<K(==, !new), V>(d: Dict<K, V>, k: K): (r: Dict<K, V>)
    ensures |r| == |d| || |r| == |d| - 1
    ensures (forall i :: 0 <= i < |d| ==> d[i].0 != k) ==> r == d
  {
    if |d| == 0 then []
    else if d[0].0 == k then d[1..]
    else [d[0]] + Remove(d[1..], k)
  }

  /** Deleting a key removes exactly its entry. */
  lemma {:induction false} RemoveAt<K(!new), V>(a: Dict<K, V>, e: (K, V), b: Dict<K, V>)
    requires forall i :: 0 <= i < |a| ==> a[i].0 != e.0
    ensures Remove(a + [e] + b, e.0) == a + b
    decreases |a|
  {
    var s := a + [e] + b;
    if |a| == 0 {
      assert s == [e] + b;
    } else {
      assert s == [a[0]] + (a[1..] + [e] + b);
      RemoveAt(a[1..], e, b);
      assert a + b == [a[0]] + (a[1..] + b);
    }
  }

  /** Looking up a key finds the first entry with it. */
  lemma {:induction false} GetAt<K(!new), V>(a: Dict<K, V>, e: (K, V), b: Dict<K, V>)
    requires forall i :: 0 <= i < |a| ==> a[i].0 != e.0
    ensures Get(a + [e] + b, e.0) == Some(e.1)
    decreases |a|
  {
    if |a| > 0 {
      assert (a + [e] + b)[1..] == a[1..] + [e] + b;
      GetAt(a[1..], e, b);
    } else {
      assert a + [e] + b == [e] + b;
    }
  }
}
