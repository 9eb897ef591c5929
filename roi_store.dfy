/**
 * The ROI visibility store: a map from ROI number to whether the ROI's
 * contours are drawn. Each action replaces the map with an updated copy.
 * A `Map` compares its keys by SameValueZero, under which every `NaN` is
 * the same key, as it is under equality of `Number`.
 */
module RoiVisibility {
  import opened DicomTags
  import opened RTParser

  /** `visibleRois.get(n) ?? false`: an ROI never set is hidden. */
  function Visible(m: map<Number, bool>, roiNumber: Number): (r: bool)
    ensures roiNumber !in m ==> !r
    ensures roiNumber in m ==> r == m[roiNumber]
  {
    roiNumber in m && m[roiNumber]
  }

  /** The map after every listed ROI has been set to `isVisible`, in list order. */
  function SetAll(m: map<Number, bool>, rois: seq<Roi>, isVisible: bool): map<Number, bool>
  {
    if |rois| == 0 then m
    else SetAll(m, rois[..|rois| - 1], isVisible)[rois[|rois| - 1].roiNumber := isVisible]
  }

  /** Every listed ROI ends up with the value; every unlisted entry is kept. */
  lemma {:induction false} SetAllSpec(m: map<Number, bool>, rois: seq<Roi>, isVisible: bool)
    ensures forall i :: 0 <= i < |rois| ==> Visible(SetAll(m, rois, isVisible), rois[i].roiNumber) == isVisible
    ensures forall n :: n !in m && (forall i :: 0 <= i < |rois| ==> rois[i].roiNumber != n) ==> n !in SetAll(m, rois, isVisible)
    ensures forall n :: n in m && (forall i :: 0 <= i < |rois| ==> rois[i].roiNumber != n) ==>
      n in SetAll(m, rois, isVisible) && SetAll(m, rois, isVisible)[n] == m[n]
  {
    if |rois| > 0 {
      var init := rois[..|rois| - 1];
      SetAllSpec(m, init, isVisible);
      assert forall i :: 0 <= i < |init| ==> init[i] == rois[i];
    }
  }

  class RoiStore {
    var visibleRois: map<Number, bool>

    constructor ()
      ensures visibleRois == map[]
    {
      visibleRois := map[];
    }

    /** `isRoiVisible`. */
    function IsRoiVisible(roiNumber: Number): bool
      reads this
    {
      Visible(visibleRois, roiNumber)
    }

    /** `setRoiVisibility`: that ROI gets the value; every other entry is kept. */
    method SetRoiVisibility(roiNumber: Number, isVisible: bool)
      modifies this
      ensures visibleRois == old(visibleRois)[roiNumber := isVisible]
      ensures IsRoiVisible(roiNumber) == isVisible
    {
      visibleRois := visibleRois[roiNumber := isVisible];
    }

    /** `toggleRoiVisibility`: the ROI's value flipped, an unknown ROI counting as hidden. */
    method ToggleRoiVisibility(roiNumber: Number)
      modifies this
      ensures visibleRois == old(visibleRois)[roiNumber := !Visible(old(visibleRois), roiNumber)]
      ensures IsRoiVisible(roiNumber) == !old(IsRoiVisible(roiNumber))
    {
      var currentValue := Visible(visibleRois, roiNumber);
      visibleRois := visibleRois[roiNumber := !currentValue];
    }

    /** `clearAllVisibility`: every ROI hidden. */
    method ClearAllVisibility()
      modifies this
      ensures visibleRois == map[]
      ensures forall n :: !IsRoiVisible(n)
    {
      visibleRois := map[];
    }

    /** `setAllRoiVisibility`: every listed ROI gets the value, one after another. */
    method SetAllRoiVisibility(rois: seq<Roi>, isVisible: bool)
      modifies this
      ensures visibleRois == SetAll(old(visibleRois), rois, isVisible)
    {
      var newMap := visibleRois;
      for i := 0 to |rois|
        invariant newMap == SetAll(visibleRois, rois[..i], isVisible)
      {
        assert rois[..i + 1][..i] == rois[..i];
        newMap := newMap[rois[i].roiNumber := isVisible];
      }
      assert rois[..|rois|] == rois;
      visibleRois := newMap;
    }
  }

  /** Toggling twice restores what the ROI reported before. */
  lemma ToggleTwice(m: map<Number, bool>, roiNumber: Number)
    ensures var once := m[roiNumber := !Visible(m, roiNumber)];
      Visible(once[roiNumber := !Visible(once, roiNumber)], roiNumber) == Visible(m, roiNumber)
  {
  }
}
