/**
 * Python dicts whose insertion order is observable, as association
 * lists with distinct keys.
 */
module Dicts {
  import opened Wrappers

  type Dict<K, V> = seq<(K, V)>

  predicate Distinct<K(==), V>(d: Dict<K, V>)
  {
    forall i, j :: 0 <= i < j < |d| ==> d[i].0 != d[j].0
  }

  function Keys<K(==), V>(d: Dict<K, V>): (ks: seq<K>)
    ensures |ks| == |d|
    ensures forall i :: 0 <= i < |d| ==> ks[i] == d[i].0
  {
    seq(|d|, i requires 0 <= i < |d| => d[i].0)
  }

  predicate HasKey<K(==), V>(d: Dict<K, V>, k: K)
  {
    exists i :: 0 <= i < |d| && d[i].0 == k
  }

  /** The position of `k` in `d`, or |d| when absent. */
  function IndexOf<K(==), V>(d: Dict<K, V>, k: K): (i: nat)
    ensures i <= |d|
    ensures i < |d| ==> d[i].0 == k
    ensures forall j :: 0 <= j < i ==> d[j].0 != k
    ensures i == |d| <==> !HasKey(d, k)
  {
    if |d| == 0 then 0
    else if d[0].0 == k then 0
    else
      var j := IndexOf(d[1..], k);
      assert forall m :: 1 <= m < |d| ==> d[m] == d[1..][m - 1];
      1 + j
  }

  /** `d.get(k)`. */
  function Get<K(==), V>(d: Dict<K, V>, k: K): (r: Option<V>)
    ensures r.Some? <==> HasKey(d, k)
    ensures r.Some? ==> exists i :: 0 <= i < |d| && d[i] == (k, r.value)
  {
    var i := IndexOf(d, k);
    if i < |d| then Some(d[i].1) else None
  }

  /** `d[k] = v`: replaces the value in place, or appends a new entry. */
  function Set<K(==), V>(d: Dict<K, V>, k: K, v: V): (r: Dict<K, V>)
    ensures HasKey(d, k) ==> |r| == |d| && Keys(r) == Keys(d)
    ensures !HasKey(d, k) ==> r == d + [(k, v)]
  {
    var i := IndexOf(d, k);
    if i < |d| then d[i := (k, v)] else d + [(k, v)]
  }

  /** Writing a key twice is writing it once with the second value. */
  lemma SetSet<K, V>(d: Dict<K, V>, k: K, v: V, w: V)
    ensures Set(Set(d, k, v), k, w) == Set(d, k, w)
  {
    var i := IndexOf(d, k);
    var r := Set(d, k, v);
    if i < |d| {
      assert r == d[i := (k, v)];
      IndexOfFirst(r, k, i);
      assert r[i := (k, w)] == d[i := (k, w)];
    } else {
      assert r == d + [(k, v)];
      IndexOfFirst(r, k, i);
      assert r[i := (k, w)] == d + [(k, w)];
    }
  }

  /** The first position holding `k` is its index. */
  lemma IndexOfFirst<K, V>(d: Dict<K, V>, k: K, i: nat)
    requires i < |d| && d[i].0 == k
    requires forall j :: 0 <= j < i ==> d[j].0 != k
    ensures IndexOf(d, k) == i
  {
  }

  /** `del d[k]`. */
  function Remove<K(==), V>(d: Dict<K, V>, k: K): (r: Dict<K, V>)
    ensures !HasKey(d, k) ==> r == d
  {
    var i := IndexOf(d, k);
    if i < |d| then d[..i] + d[i + 1..] else d
  }

  /** In a dict with distinct keys, the position of a key is where it is stored. */
  lemma IndexOfDistinct<K, V>(d: Dict<K, V>, k: K, i: nat)
    requires Distinct(d)
    requires i < |d| && d[i].0 == k
    ensures IndexOf(d, k) == i
  {
  }

  lemma GetSet<K, V>(d: Dict<K, V>, k: K, v: V, k': K)
    requires Distinct(d)
    ensures Distinct(Set(d, k, v))
    ensures Get(Set(d, k, v), k) == Some(v)
    ensures k' != k ==> Get(Set(d, k, v), k') == Get(d, k')
  {
    var r := Set(d, k, v);
    var i := IndexOf(d, k);
    assert forall m :: 0 <= m < |r| ==> r[m].0 == if m < |d| then d[m].0 else k;
    assert Distinct(r);
    IndexOfDistinct(r, k, i);
    if k' != k {
      var j := IndexOf(d, k');
      if j < |d| {
        IndexOfDistinct(r, k', j);
      } else {
        assert !HasKey(r, k');
      }
    }
  }

  lemma RemoveDistinct<K, V>(d: Dict<K, V>, i: nat)
    requires Distinct(d) && i < |d|
    ensures Distinct(d[..i] + d[i + 1..])
    ensures forall m :: 0 <= m < |d| && m != i ==> d[m] in d[..i] + d[i + 1..]
    ensures forall e :: e in d[..i] + d[i + 1..] ==> e in d && e.0 != d[i].0
  {
    var r := d[..i] + d[i + 1..];
    assert forall m :: 0 <= m < i ==> r[m] == d[m];
    assert forall m :: i <= m < |r| ==> r[m] == d[m + 1];
    forall m | 0 <= m < |d| && m != i
      ensures d[m] in r
    {
      if m < i { assert r[m] == d[m]; } else { assert r[m - 1] == d[m]; }
    }
  }

  lemma GetRemove<K, V>(d: Dict<K, V>, k: K, k': K)
    requires Distinct(d)
    ensures Distinct(Remove(d, k))
    ensures Get(Remove(d, k), k) == None
    ensures k' != k ==> Get(Remove(d, k), k') == Get(d, k')
  {
    var i := IndexOf(d, k);
    if i < |d| {
      var r := Remove(d, k);
      RemoveDistinct(d, i);
      assert !HasKey(r, k) by {
        forall m | 0 <= m < |r| ensures r[m].0 != k { assert r[m] in r; }
      }
      if k' != k {
        var j := IndexOf(d, k');
        if j < |d| {
          assert d[j] in r;
          var jr :| 0 <= jr < |r| && r[jr] == d[j];
          IndexOfDistinct(r, k', jr);
        } else {
          assert !HasKey(r, k') by {
            forall m | 0 <= m < |r| ensures r[m].0 != k' { assert r[m] in d; }
          }
        }
      }
    }
  }
}
