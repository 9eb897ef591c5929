/** General helpers: identity, splitting a list by a predicate or a type guard, and picking keys of a record. */
module Utils {
  import opened Wrappers

  /** `identity`. */
  function Identity<T>(arg: T): (r: T)
    ensures r == arg
  {
    arg
  }

  /** The elements of `xs` on one side of `isLeft`, in their order: those with `isLeft(x) == left`. */
  function Side<T>(isLeft: T -> bool, xs: seq<T>, left: bool): seq<T>
  {
    if |xs| == 0 then []
    else Side(isLeft, xs[..|xs| - 1], left) + (if isLeft(xs[|xs| - 1]) == left then [xs[|xs| - 1]] else [])
  }

  /** An element lies on a side exactly when it is in the list and on that side of the predicate. */
  lemma {:induction false} SideMembers<T>(isLeft: T -> bool, xs: seq<T>, left: bool, x: T)
    ensures x in Side(isLeft, xs, left) <==> x in xs && isLeft(x) == left
  {
    if |xs| > 0 {
      var init := xs[..|xs| - 1];
      SideMembers(isLeft, init, left, x);
      assert xs == init + [xs[|xs| - 1]];
    }
  }

  /** The two sides together hold every element exactly as often as the list, so their lengths add up to its length. */
  lemma {:induction false} SidesCover<T>(isLeft: T -> bool, xs: seq<T>)
    ensures multiset(Side(isLeft, xs, true)) + multiset(Side(isLeft, xs, false)) == multiset(xs)
    ensures |Side(isLeft, xs, true)| + |Side(isLeft, xs, false)| == |xs|
  {
    if |xs| > 0 {
      var init, last := xs[..|xs| - 1], xs[|xs| - 1];
      var l, r := Side(isLeft, init, true), Side(isLeft, init, false);
      SidesCover(isLeft, init);
      assert xs == init + [last];
      if isLeft(last) {
        assert Side(isLeft, xs, true) == l + [last];
        assert Side(isLeft, xs, false) == r;
      } else {
        assert Side(isLeft, xs, true) == l;
        assert Side(isLeft, xs, false) == r + [last];
      }
    }
    SidesCoverLength(Side(isLeft, xs, true), Side(isLeft, xs, false), xs);
  }

  lemma SidesCoverLength<T>(l: seq<T>, r: seq<T>, xs: seq<T>)
    requires multiset(l) + multiset(r) == multiset(xs)
    ensures |l| + |r| == |xs|
  {
    assert |multiset(l) + multiset(r)| == |multiset(xs)|;
  }

  /** `partition`: the elements satisfying the predicate, then the rest, each in input order. */
  method Partition<T>(pred: T -> bool, arr: seq<T>) returns (left: seq<T>, right: seq<T>)
    ensures left == Side(pred, arr, true)
    ensures right == Side(pred, arr, false)
  {
    left, right := [], [];
    for i := 0 to |arr|
      invariant left == Side(pred, arr[..i], true)
      invariant right == Side(pred, arr[..i], false)
    {
      assert arr[..i + 1][..i] == arr[..i];
      if pred(arr[i]) {
        left := left + [arr[i]];
      } else {
        right := right + [arr[i]];
      }
    }
    assert arr[..|arr|] == arr;
  }

  /** The predicate a narrowing function stands for: the type guard `x is U`. */
  function Guard<T, U>(narrow: T -> Option<U>): T -> bool
  {
    x => narrow(x).Some?
  }

  /** The elements the guard accepts, each seen at the narrower type, in order. */
  function Narrowed<T, U>(narrow: T -> Option<U>, xs: seq<T>): seq<U>
  {
    if |xs| == 0 then []
    else Narrowed(narrow, xs[..|xs| - 1]) + (match narrow(xs[|xs| - 1]) case Some(u) => [u] case None => [])
  }

  /** The narrowed side is the guard's left side, element by element. */
  lemma {:induction false} NarrowedIsLeftSide<T, U>(narrow: T -> Option<U>, xs: seq<T>)
    ensures |Narrowed(narrow, xs)| == |Side(Guard(narrow), xs, true)|
    ensures forall i :: 0 <= i < |Narrowed(narrow, xs)| ==>
      narrow(Side(Guard(narrow), xs, true)[i]) == Some(Narrowed(narrow, xs)[i])
  {
    if |xs| > 0 {
      NarrowedIsLeftSide(narrow, xs[..|xs| - 1]);
    }
  }

  /** `partitionByType`: the split of `partition` under the type guard, with the accepted elements narrowed. */
  method PartitionByType<T, U>(narrow: T -> Option<U>, arr: seq<T>) returns (left: seq<U>, right: seq<T>)
    ensures left == Narrowed(narrow, arr)
    ensures right == Side(Guard(narrow), arr, false)
  {
    left, right := [], [];
    for i := 0 to |arr|
      invariant left == Narrowed(narrow, arr[..i])
      invariant right == Side(Guard(narrow), arr[..i], false)
    {
      assert arr[..i + 1][..i] == arr[..i];
      match narrow(arr[i]) {
        case Some(u) => left := left + [u];
        case None => right := right + [arr[i]];
      }
    }
    assert arr[..|arr|] == arr;
  }

  /** `pick`: a record holding exactly the listed keys, each with the object's value (`undefined` when it has none). */
  function Pick<K, V>(obj: map<K, V>, keys: seq<K>): (r: map<K, Option<V>>)
    ensures r.Keys == set k | k in keys
    ensures forall k :: k in r ==> r[k] == if k in obj then Some(obj[k]) else None
  {
    if |keys| == 0 then map[]
    else
      var k := keys[|keys| - 1];
      Pick(obj, keys[..|keys| - 1])[k := if k in obj then Some(obj[k]) else None]
  }

  /** The picked record depends only on which keys are listed, not on their order or repetition. */
  lemma PickByKeySet<K, V>(obj: map<K, V>, keys1: seq<K>, keys2: seq<K>)
    requires (set k | k in keys1) == (set k | k in keys2)
    ensures Pick(obj, keys1) == Pick(obj, keys2)
  {
  }
}
