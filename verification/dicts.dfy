/** Python's `dict` with string keys: an insertion-ordered association list.
    Assigning to a present key replaces the value in place and keeps the key's
    position; assigning to a new key appends it. The gateway's routing table,
    JSON objects and error details are all dicts of this kind. */
module Dicts {
  import opened Base

  type Dict<V> = seq<(string, V)>

  /** `d.keys()`, in insertion order. */
  function Keys<V>(d: Dict<V>): (ks: seq<string>)
    ensures |ks| == |d|
    ensures forall i :: 0 <= i < |d| ==> ks[i] == d[i].0
  {
    if |d| == 0 then [] else [d[0].0] + Keys(d[1..])
  }

  /** A well-formed Python dict never holds one key twice. */
  ghost predicate UniqueKeys<V>(d: Dict<V>) {
    forall i, j :: 0 <= i < j < |d| ==> d[i].0 != d[j].0
  }

  /** `d.get(k)`: the value stored under `k`, if any. */
  function Find<V>(d: Dict<V>, k: string): (r: Option<V>)
    ensures r.None? <==> k !in Keys(d)
  {
    if |d| == 0 then None
    else if d[0].0 == k then Some(d[0].1)
    else
      assert Keys(d) == [d[0].0] + Keys(d[1..]);
      Find(d[1..], k)
  }

  /** In a dict with unique keys, the entry at index `i` is what `Find` returns. */
  lemma {:induction false} FindAt<V>(d: Dict<V>, i: nat)
    requires UniqueKeys(d) && i < |d|
    ensures Find(d, d[i].0) == Some(d[i].1)
  {
    if i > 0 {
      assert d[0].0 != d[i].0;
      FindAt(d[1..], i - 1);
    }
  }

  /** `d[k] = v`: replaces the value of a present key in place, or appends. */
  function Put<V>(d: Dict<V>, k: string, v: V): (r: Dict<V>)
    ensures k in Keys(d) ==> Keys(r) == Keys(d)
    ensures k !in Keys(d) ==> Keys(r) == Keys(d) + [k]
  {
    if |d| == 0 then [(k, v)]
    else if d[0].0 == k then [(k, v)] + d[1..]
    else
      assert Keys(d) == [d[0].0] + Keys(d[1..]);
      var rest := Put(d[1..], k, v);
      var r := [d[0]] + rest;
      assert r[1..] == rest;
      assert Keys(r) == [d[0].0] + Keys(rest);
      r
  }

  /** After `d[k] = v`, `k` maps to `v` and every other key to what it did before. */
  lemma {:induction false} PutFind<V>(d: Dict<V>, k: string, v: V, k': string)
    ensures Find(Put(d, k, v), k') == if k' == k then Some(v) else Find(d, k')
  {
    if |d| > 0 && d[0].0 != k {
      var r := Put(d, k, v);
      assert r[0] == d[0] && r[1..] == Put(d[1..], k, v);
      PutFind(d[1..], k, v, k');
    }
  }

  /** Assignment keeps a dict's keys unique. */
  lemma PutKeepsUnique<V>(d: Dict<V>, k: string, v: V)
    requires UniqueKeys(d)
    ensures UniqueKeys(Put(d, k, v))
  {
    var r := Put(d, k, v);
    var ks := Keys(r);
    if k in Keys(d) {
      assert ks == Keys(d);
    } else {
      assert ks == Keys(d) + [k];
    }
    assert forall i, j :: 0 <= i < j < |r| ==> ks[i] != ks[j];
  }
}
