/**
 * Python's built-in `dict` as far as TableauHyper.py relies on it: keys are
 * unique and remembered in insertion order; `d[k] = v` overwrites the value
 * of an existing key in place and appends a new key at the end; a dict
 * comprehension stores its items one after another in iteration order.
 */
module PyDict {
  import opened Wrappers

  /** The items of a dict, in insertion order. */
  type Entries<K, V> = seq<(K, V)>

  /** `list(d.keys())`. */
  function Keys<K, V>(d: Entries<K, V>): seq<K>
  {
    seq(|d|, i requires 0 <= i < |d| => d[i].0)
  }

  /** Every dict has this shape: no key occurs twice. */
  predicate DistinctKeys<K(==), V>(d: Entries<K, V>)
  {
    forall i, j :: 0 <= i < j < |d| ==> d[i].0 != d[j].0
  }

  /** `d[k]`, with None where Python raises `KeyError`. */
  function Find<K(==), V>(d: Entries<K, V>, k: K): (r: Option<V>)
    ensures r.Some? <==> k in Keys(d)
    ensures r.Some? ==> (k, r.value) in d
  {
    if d == [] then None
    else if d[0].0 == k then
      assert Keys(d)[0] == k;
      Some(d[0].1)
    else
      assert Keys(d) == [d[0].0] + Keys(d[1..]);
      Find(d[1..], k)
  }

  /** In a dict, every item is what a lookup of its key returns. */
  lemma {:induction false} FindAt<K, V>(d: Entries<K, V>, i: nat)
    requires DistinctKeys(d) && i < |d|
    ensures Find(d, d[i].0) == Some(d[i].1)
  {
    if i > 0 {
      assert DistinctKeys(d[1..]);
      FindAt(d[1..], i - 1);
      assert d[1..][i - 1] == d[i];
      assert d[0].0 != d[i].0;
    }
  }

  /** The position of key k in the dict. */
  function IndexOf<K(==), V>(d: Entries<K, V>, k: K): (i: nat)
    requires k in Keys(d)
    ensures i < |d| && d[i].0 == k
  {
    if d[0].0 == k then 0
    else
      assert Keys(d) == [d[0].0] + Keys(d[1..]);
      1 + IndexOf(d[1..], k)
  }

  /** A key outside the dict is not found. */
  lemma FindAbsent<K, V>(d: Entries<K, V>, k: K)
    requires forall i :: 0 <= i < |d| ==> d[i].0 != k
    ensures Find(d, k) == None
  {
    assert k !in Keys(d);
  }

  /** `d[k] = v`: overwrite the item of k in place, or append a new item. */
  function Put<K(==,!new), V>(d: Entries<K, V>, k: K, v: V): (r: Entries<K, V>)
    requires DistinctKeys(d)
    ensures DistinctKeys(r)
    ensures Find(r, k) == Some(v)
    ensures forall k' :: k' != k ==> Find(r, k') == Find(d, k')
    ensures k !in Keys(d) ==> r == d + [(k, v)]
    ensures forall i :: 0 <= i < |d| && d[i].0 == k ==> r == d[i := (k, v)]
  {
    var i := if k in Keys(d) then IndexOf(d, k) else |d|;
    var r := if i < |d| then d[i := (k, v)] else d + [(k, v)];
    assert forall j :: 0 <= j < |d| && j != i ==> d[j].0 != k by {
      assert forall j :: 0 <= j < |d| ==> Keys(d)[j] == d[j].0;
    }
    assert forall j :: 0 <= j < |d| && j != i ==> r[j] == d[j];
    FindAt(r, i);
    assert forall k' | k' != k :: Find(r, k') == Find(d, k') by {
      forall k' | k' != k
        ensures Find(r, k') == Find(d, k')
      {
        if j :| 0 <= j < |d| && d[j].0 == k' {
          FindAt(d, j);
          FindAt(r, j);
        } else {
          FindAbsent(d, k');
          FindAbsent(r, k');
        }
      }
    }
    r
  }

  /**
   * `{v: k for k, v in d.items() if k != skip}`: the items are visited in
   * insertion order and each one is stored, so of several keys sharing a
   * value the last one visited is kept.
   */
  function InvertSkipping<K(==), V(==,!new)>(d: Entries<K, V>, skip: K): (r: Entries<V, K>)
    ensures DistinctKeys(r)
    decreases |d|
  {
    if d == [] then []
    else
      var acc := InvertSkipping(d[..|d| - 1], skip);
      var (k, v) := d[|d| - 1];
      if k != skip then Put(acc, v, k) else acc
  }

  /**
   * The inversion stated without dict updates: the key of the last item, in
   * insertion order, that holds v and whose key is not skip.
   */
  function LastKeyWithValue<K(==), V(==)>(d: Entries<K, V>, v: V, skip: K): (r: Option<K>)
    ensures r.Some? ==> r.value != skip && (r.value, v) in d
    ensures r.None? ==> forall i :: 0 <= i < |d| && d[i].1 == v ==> d[i].0 == skip
    decreases |d|
  {
    if d == [] then None
    else if d[|d| - 1].1 == v && d[|d| - 1].0 != skip then Some(d[|d| - 1].0)
    else
      var r := LastKeyWithValue(d[..|d| - 1], v, skip);
      assert r.Some? ==> (r.value, v) in d[..|d| - 1];
      r
  }

  /** Last writer wins: the item at i is the result when no later item holds v under a key other than skip. */
  lemma {:induction false} LastKeyWithValueAt<K, V>(d: Entries<K, V>, v: V, skip: K, i: nat)
    requires i < |d| && d[i].1 == v && d[i].0 != skip
    requires forall j :: i < j < |d| && d[j].1 == v ==> d[j].0 == skip
    ensures LastKeyWithValue(d, v, skip) == Some(d[i].0)
    decreases |d|
  {
    if i < |d| - 1 {
      LastKeyWithValueAt(d[..|d| - 1], v, skip, i);
    }
  }

  /** Without any item that holds v under a key other than skip, there is no result. */
  lemma LastKeyWithValueAbsent<K, V>(d: Entries<K, V>, v: V, skip: K)
    requires forall j :: 0 <= j < |d| && d[j].1 == v ==> d[j].0 == skip
    ensures LastKeyWithValue(d, v, skip) == None
  {
  }

  /** The comprehension keeps exactly the last writer of each value. */
  lemma {:induction false} InvertSkippingIsLastWriter<K, V(!new)>(d: Entries<K, V>, skip: K, v: V)
    ensures Find(InvertSkipping(d, skip), v) == LastKeyWithValue(d, v, skip)
    decreases |d|
  {
    if d != [] {
      InvertSkippingIsLastWriter(d[..|d| - 1], skip, v);
    }
  }

  /** Every item of the inverted dict came from an item of d that it reverses. */
  lemma InvertSkippingRoundTrip<K, V(!new)>(d: Entries<K, V>, skip: K, v: V)
    requires DistinctKeys(d)
    requires Find(InvertSkipping(d, skip), v).Some?
    ensures Find(InvertSkipping(d, skip), v).value != skip
    ensures Find(d, Find(InvertSkipping(d, skip), v).value) == Some(v)
  {
    InvertSkippingIsLastWriter(d, skip, v);
    var k := Find(InvertSkipping(d, skip), v).value;
    assert (k, v) in d;
    var i :| 0 <= i < |d| && d[i] == (k, v);
    FindAt(d, i);
  }
}
