/**
 * JavaScript `Map` with string keys: entries keep the order in which their
 * keys were first inserted, and setting an existing key replaces its value
 * where it stands.
 */
module OrderedMaps {
  import opened Wrappers

  type OrderedMap<V> = seq<(string, V)>

  predicate HasKey<V>(m: OrderedMap<V>, k: string)
  {
    exists i :: 0 <= i < |m| && m[i].0 == k
  }

  /** No key occurs twice. */
  predicate UniqueKeys<V>(m: OrderedMap<V>)
  {
    forall i, j :: 0 <= i < j < |m| ==> m[i].0 != m[j].0
  }

  /** `map.get(k)`. */
  function Get<V>(m: OrderedMap<V>, k: string): (r: Option<V>)
    ensures r.None? <==> !HasKey(m, k)
    ensures r.Some? ==> exists i :: 0 <= i < |m| && m[i] == (k, r.value)
  {
    if |m| == 0 then None
    else if m[0].0 == k then Some(m[0].1)
    else
      assert forall i :: 1 <= i < |m| ==> m[i] == m[1..][i - 1];
      Get(m[1..], k)
  }

  /** `map.set(k, v)`: replaces the value of an existing key in place, or appends a new entry. */
  function Put<V>(m: OrderedMap<V>, k: string, v: V): (r: OrderedMap<V>)
    ensures |r| == if HasKey(m, k) then |m| else |m| + 1
    ensures forall i :: 0 <= i < |m| ==> r[i].0 == m[i].0
    ensures forall i :: 0 <= i < |m| && m[i].0 != k ==> r[i] == m[i]
    ensures forall i :: 0 <= i < |m| && m[i].0 == k ==> r[i] == (k, v)
    ensures !HasKey(m, k) ==> r == m + [(k, v)]
  {
    if |m| == 0 then [(k, v)]
    else if m[0].0 == k then [(k, v)] + (if HasKey(m[1..], k) then Put(m[1..], k, v) else m[1..])
    else
      assert forall i :: 1 <= i < |m| ==> m[i] == m[1..][i - 1];
      assert HasKey(m, k) <==> HasKey(m[1..], k);
      [m[0]] + Put(m[1..], k, v)
  }

  /** In a map with distinct keys, `get` of the key of entry i is the value of entry i. */
  lemma {:induction false} GetAt<V>(m: OrderedMap<V>, i: nat)
    requires UniqueKeys(m) && i < |m|
    ensures Get(m, m[i].0) == Some(m[i].1)
  {
    if i > 0 {
      assert m[0].0 != m[i].0;
      assert UniqueKeys(m[1..]);
      GetAt(m[1..], i - 1);
    }
  }

  /** After `set(k, v)`, `get(k)` is `v`, and every other key keeps its value. */
  lemma PutSpec<V>(m: OrderedMap<V>, k: string, v: V)
    requires UniqueKeys(m)
    ensures UniqueKeys(Put(m, k, v))
    ensures Get(Put(m, k, v), k) == Some(v)
    ensures forall k' :: k' != k ==> Get(Put(m, k, v), k') == Get(m, k')
  {
    var r := Put(m, k, v);
    if HasKey(m, k) {
      var i :| 0 <= i < |m| && m[i].0 == k;
      GetAt(r, i);
    } else {
      GetAt(r, |m|);
    }
    forall k' | k' != k
      ensures Get(r, k') == Get(m, k')
    {
      if HasKey(m, k') {
        var i :| 0 <= i < |m| && m[i].0 == k';
        GetAt(r, i);
        GetAt(m, i);
      } else {
        assert !HasKey(r, k');
      }
    }
  }

  /** The values, in entry order (`Array.from(map.values())`). */
  function Values<V>(m: OrderedMap<V>): (r: seq<V>)
    ensures |r| == |m| && forall i :: 0 <= i < |m| ==> r[i] == m[i].1
  {
    seq(|m|, i requires 0 <= i < |m| => m[i].1)
  }

  /** `Array.prototype.findIndex`: the first position whose element satisfies `p`. */
  function FirstIndex<T>(xs: seq<T>, p: T -> bool): (r: Option<nat>)
    ensures r.Some? ==> r.value < |xs| && p(xs[r.value]) && forall i :: 0 <= i < r.value ==> !p(xs[i])
    ensures r.None? ==> forall i :: 0 <= i < |xs| ==> !p(xs[i])
  {
    if |xs| == 0 then None
    else if p(xs[0]) then Some(0)
    else
      var r := FirstIndex(xs[1..], p);
      assert forall i :: 1 <= i < |xs| ==> xs[i] == xs[1..][i - 1];
      if r.Some? then Some(r.value + 1) else None
  }
}
