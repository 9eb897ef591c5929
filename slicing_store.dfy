/**
 * The slicing store: per view, the current slice index, its bounds and the
 * slicing mode. Actions update one view's entry in place.
 */
module Slicing {
  import opened Wrappers

  datatype ViewSlice = ViewSlice(slice: int, min: int, max: int, sliceMode: int)

  /** A partial update of a view's entry. */
  datatype SlicePatch = SlicePatch(slice: Option<int>, min: Option<int>, max: Option<int>, sliceMode: Option<int>)

  /** The entry `updateSlice` starts from for a view it has not seen. */
  const FirstSlice := ViewSlice(0, 0, 1, 0)

  /** The entry `resetSlice` stores. */
  const ResetSlice := ViewSlice(0, 0, 0, 0)

  /** The slice lies within its bounds. */
  predicate InBounds(v: ViewSlice)
  {
    v.min <= v.slice <= v.max
  }

  /** `{...entry, ...patch}`: every given field replaces the entry's. */
  function Patched(v: ViewSlice, p: SlicePatch): (r: ViewSlice)
    ensures p.slice.Some? ==> r.slice == p.slice.value
    ensures p.slice.None? ==> r.slice == v.slice
    ensures p.min.Some? ==> r.min == p.min.value
    ensures p.min.None? ==> r.min == v.min
    ensures p.max.Some? ==> r.max == p.max.value
    ensures p.max.None? ==> r.max == v.max
    ensures p.sliceMode.Some? ==> r.sliceMode == p.sliceMode.value
    ensures p.sliceMode.None? ==> r.sliceMode == v.sliceMode
  {
    ViewSlice(p.slice.GetOr(v.slice), p.min.GetOr(v.min), p.max.GetOr(v.max), p.sliceMode.GetOr(v.sliceMode))
  }

  /** `Math.max(min, Math.min(max, slice))`. */
  function Clamp(lo: int, hi: int, x: int): (r: int)
    ensures lo <= hi ==> lo <= r <= hi
    ensures lo <= x <= hi ==> r == x
    ensures x < lo ==> r == lo
    ensures lo <= hi && hi < x ==> r == hi
  {
    Max(lo, Min(hi, x))
  }

  function Max(a: int, b: int): int
  {
    if a < b then b else a
  }

  function Min(a: int, b: int): int
  {
    if a < b then a else b
  }

  /** Clamping is idempotent: a clamped value clamps to itself. */
  lemma ClampIdempotent(lo: int, hi: int, x: int)
    requires lo <= hi
    ensures Clamp(lo, hi, Clamp(lo, hi, x)) == Clamp(lo, hi, x)
  {
  }

  /** The entry after `setSliceValue`: the slice clamped into the bounds, the rest kept. */
  function WithSlice(v: ViewSlice, slice: int): (r: ViewSlice)
    ensures r.min == v.min && r.max == v.max && r.sliceMode == v.sliceMode
    ensures v.min <= v.max ==> InBounds(r)
    ensures v.min <= slice <= v.max ==> r.slice == slice
  {
    v.(slice := Clamp(v.min, v.max, slice))
  }

  /** The entry after `incrementSlice`: one step up unless already at the top. */
  function Incremented(v: ViewSlice): (r: ViewSlice)
    ensures r.min == v.min && r.max == v.max && r.sliceMode == v.sliceMode
    ensures InBounds(v) ==> InBounds(r)
    ensures v.slice < v.max ==> r.slice == v.slice + 1
    ensures v.slice >= v.max ==> r == v
  {
    if v.slice < v.max then v.(slice := v.slice + 1) else v
  }

  /** The entry after `decrementSlice`: one step down unless already at the bottom. */
  function Decremented(v: ViewSlice): (r: ViewSlice)
    ensures r.min == v.min && r.max == v.max && r.sliceMode == v.sliceMode
    ensures InBounds(v) ==> InBounds(r)
    ensures v.slice > v.min ==> r.slice == v.slice - 1
    ensures v.slice <= v.min ==> r == v
  {
    if v.slice > v.min then v.(slice := v.slice - 1) else v
  }

  /** Inside the bounds, a step up followed by a step down returns to the start unless the step up was blocked. */
  lemma IncrementDecrement(v: ViewSlice)
    requires InBounds(v) && v.slice < v.max
    ensures Decremented(Incremented(v)) == v
  {
  }

  /** The entry `initializeView` stores: the middle slice of `0..maxSlice`. */
  function Initialized(sliceMode: int, maxSlice: int): (r: ViewSlice)
    ensures r.min == 0 && r.max == maxSlice && r.sliceMode == sliceMode
    ensures 2 * r.slice <= maxSlice < 2 * r.slice + 2
    ensures maxSlice >= 0 ==> InBounds(r)
  {
    ViewSlice(FloorHalf(maxSlice), 0, maxSlice, sliceMode)
  }

  /** `Math.floor(n / 2)`. */
  function FloorHalf(n: int): (r: int)
    ensures 2 * r <= n < 2 * r + 2
  {
    n / 2
  }

  class SlicingStore {
    var slices: map<string, ViewSlice>

    constructor ()
      ensures slices == map[]
    {
      slices := map[];
    }

    /** `updateSlice`: creates the view's entry when missing, then merges the patch. */
    method UpdateSlice(viewId: string, patch: SlicePatch)
      modifies this
      ensures slices == old(slices)[viewId := Patched(if viewId in old(slices) then old(slices)[viewId] else FirstSlice, patch)]
    {
      if viewId !in slices {
        slices := slices[viewId := FirstSlice];
      }
      slices := slices[viewId := Patched(slices[viewId], patch)];
    }

    /** `setSliceValue`: nothing for an unknown view; otherwise the slice clamped into the view's bounds. */
    method SetSliceValue(viewId: string, slice: int)
      modifies this
      ensures viewId !in old(slices) ==> slices == old(slices)
      ensures viewId in old(slices) ==> slices == old(slices)[viewId := WithSlice(old(slices)[viewId], slice)]
    {
      if viewId !in slices {
        return;
      }
      var v := slices[viewId];
      var boundedSlice := Clamp(v.min, v.max, slice);
      if v.slice != boundedSlice {
        slices := slices[viewId := v.(slice := boundedSlice)];
      }
    }

    /** `incrementSlice`: nothing for an unknown view; otherwise one step up unless at the top. */
    method IncrementSlice(viewId: string)
      modifies this
      ensures viewId !in old(slices) ==> slices == old(slices)
      ensures viewId in old(slices) ==> slices == old(slices)[viewId := Incremented(old(slices)[viewId])]
    {
      if viewId !in slices {
        return;
      }
      var v := slices[viewId];
      if v.slice < v.max {
        slices := slices[viewId := v.(slice := v.slice + 1)];
      }
    }

    /** `decrementSlice`: nothing for an unknown view; otherwise one step down unless at the bottom. */
    method DecrementSlice(viewId: string)
      modifies this
      ensures viewId !in old(slices) ==> slices == old(slices)
      ensures viewId in old(slices) ==> slices == old(slices)[viewId := Decremented(old(slices)[viewId])]
    {
      if viewId !in slices {
        return;
      }
      var v := slices[viewId];
      if v.slice > v.min {
        slices := slices[viewId := v.(slice := v.slice - 1)];
      }
    }

    /** `resetSlice`: every field of the view's entry back to 0. */
    method ResetView(viewId: string)
      modifies this
      ensures slices == old(slices)[viewId := ResetSlice]
    {
      slices := slices[viewId := ResetSlice];
    }

    /** `initializeView`: the view starts at its middle slice with bounds `0..maxSlice`. */
    method InitializeView(viewId: string, sliceMode: int, maxSlice: int)
      modifies this
      ensures slices == old(slices)[viewId := Initialized(sliceMode, maxSlice)]
    {
      var initialSlice := FloorHalf(maxSlice);
      slices := slices[viewId := ViewSlice(initialSlice, 0, maxSlice, sliceMode)];
    }
  }
}
