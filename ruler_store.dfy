/**
 * The ruler measurement store: rulers keyed by id, the ruler being placed,
 * the id counter and the tool switch. Every action replaces store fields,
 * so the store is a class whose methods update them.
 */
module Rulers {
  import opened Wrappers
  import opened Strings

  datatype Vec3 = Vec3(x: real, y: real, z: real)

  datatype Color = Color(r: real, g: real, b: real)

  datatype RulerData = RulerData(
    id: string,
    sliceIndex: real,
    point1: Option<Vec3>,
    point2: Option<Vec3>,
    distance: Option<real>,
    color: Color,
    labelVisible: bool,
    handlesVisible: bool,
    lineVisible: bool,
    isComplete: bool)

  /** The optional initial data of `addRuler`: every field but the id, each absent or given (possibly as `null`). */
  datatype RulerInit = RulerInit(
    sliceIndex: Option<real>,
    point1: Option<Option<Vec3>>,
    point2: Option<Option<Vec3>>,
    distance: Option<Option<real>>,
    color: Option<Color>,
    labelVisible: Option<bool>,
    handlesVisible: Option<bool>,
    lineVisible: Option<bool>,
    isComplete: Option<bool>)

  /** The fields `updateRulerProperties` may merge in. */
  datatype RulerProperties = RulerProperties(
    sliceIndex: Option<real>,
    color: Option<Color>,
    labelVisible: Option<bool>,
    handlesVisible: Option<bool>,
    lineVisible: Option<bool>)

  const DefaultRulerColor := Color(1.0, 1.0, 0.0)

  /** The id given to the ruler created when the counter is `n`. */
  function RulerId(n: nat): string
  {
    "ruler-" + NatToDecimal(n)
  }

  /** Distinct counter values give distinct ruler ids. */
  lemma RulerIdInjective(m: nat, n: nat)
    ensures RulerId(m) == RulerId(n) <==> m == n
  {
    if m != n {
      DecimalInjective(m, n);
      var p := "ruler-";
      assert RulerId(m)[|p|..] == NatToDecimal(m);
      assert RulerId(n)[|p|..] == NatToDecimal(n);
    }
  }

  /**
   * The ruler `addRuler` creates: the defaults (slice 0, no points, no
   * distance, yellow, everything visible, not complete), with every field
   * the initial data supplies taking its place, since that data is spread last.
   */
  function NewRuler(id: string, init: RulerInit): (r: RulerData)
    ensures r.id == id
    ensures r.sliceIndex == (if init.sliceIndex.Some? then init.sliceIndex.value else 0.0)
    ensures r.point1 == (if init.point1.Some? then init.point1.value else None)
    ensures r.point2 == (if init.point2.Some? then init.point2.value else None)
    ensures r.distance == (if init.distance.Some? then init.distance.value else None)
    ensures r.color == (if init.color.Some? then init.color.value else DefaultRulerColor)
    ensures r.labelVisible == (init.labelVisible != Some(false))
    ensures r.handlesVisible == (init.handlesVisible != Some(false))
    ensures r.lineVisible == (init.lineVisible != Some(false))
    ensures r.isComplete == (init.isComplete == Some(true))
  {
    RulerData(
      id,
      init.sliceIndex.GetOr(0.0),
      init.point1.GetOr(None),
      init.point2.GetOr(None),
      init.distance.GetOr(None),
      init.color.GetOr(DefaultRulerColor),
      init.labelVisible.GetOr(true),
      init.handlesVisible.GetOr(true),
      init.lineVisible.GetOr(true),
      init.isComplete.GetOr(false))
  }

  /**
   * The ruler after one of its points is set or cleared: the distance is
   * recomputed (by `dist`) when both points are set and cleared otherwise,
   * and the ruler is complete exactly when both points are set.
   */
  function WithPoint(ruler: RulerData, pointNumber: nat, coordinates: Option<Vec3>, dist: (Vec3, Vec3) -> real): (r: RulerData)
    requires pointNumber == 1 || pointNumber == 2
    ensures pointNumber == 1 ==> r.point1 == coordinates && r.point2 == ruler.point2
    ensures pointNumber == 2 ==> r.point2 == coordinates && r.point1 == ruler.point1
    ensures r.isComplete <==> r.point1.Some? && r.point2.Some?
    ensures r.distance.Some? <==> r.isComplete
    ensures r.isComplete ==> r.distance == Some(dist(r.point1.value, r.point2.value))
    ensures r.id == ruler.id && r.sliceIndex == ruler.sliceIndex && r.color == ruler.color
    ensures r.labelVisible == ruler.labelVisible && r.handlesVisible == ruler.handlesVisible && r.lineVisible == ruler.lineVisible
  {
    var placed := if pointNumber == 1 then ruler.(point1 := coordinates) else ruler.(point2 := coordinates);
    var both := placed.point1.Some? && placed.point2.Some?;
    placed.(
      distance := if both then Some(dist(placed.point1.value, placed.point2.value)) else None,
      isComplete := both)
  }

  /** The ruler after its placement is completed with `point2`. */
  function Completed(ruler: RulerData, point2: Vec3, dist: (Vec3, Vec3) -> real): (r: RulerData)
    requires ruler.point1.Some?
    ensures r.point1 == ruler.point1 && r.point2 == Some(point2) && r.isComplete
    ensures r.distance == Some(dist(ruler.point1.value, point2))
    ensures r.id == ruler.id && r.sliceIndex == ruler.sliceIndex && r.color == ruler.color
    ensures r.labelVisible == ruler.labelVisible && r.handlesVisible == ruler.handlesVisible && r.lineVisible == ruler.lineVisible
  {
    ruler.(point2 := Some(point2), distance := Some(dist(ruler.point1.value, point2)), isComplete := true)
  }

  /** The ruler with the given properties merged in. */
  function Merged(ruler: RulerData, p: RulerProperties): (r: RulerData)
    ensures r.sliceIndex == p.sliceIndex.GetOr(ruler.sliceIndex) && r.color == p.color.GetOr(ruler.color)
    ensures r.labelVisible == p.labelVisible.GetOr(ruler.labelVisible)
    ensures r.handlesVisible == p.handlesVisible.GetOr(ruler.handlesVisible)
    ensures r.lineVisible == p.lineVisible.GetOr(ruler.lineVisible)
    ensures r.id == ruler.id && r.point1 == ruler.point1 && r.point2 == ruler.point2
    ensures r.distance == ruler.distance && r.isComplete == ruler.isComplete
  {
    ruler.(
      sliceIndex := p.sliceIndex.GetOr(ruler.sliceIndex),
      color := p.color.GetOr(ruler.color),
      labelVisible := p.labelVisible.GetOr(ruler.labelVisible),
      handlesVisible := p.handlesVisible.GetOr(ruler.handlesVisible),
      lineVisible := p.lineVisible.GetOr(ruler.lineVisible))
  }

  /** The id was handed out by a counter value below `counter`. */
  ghost predicate IssuedBelow(k: string, counter: nat)
  {
    exists n: nat :: n < counter && k == RulerId(n)
  }

  /** The id the counter hands out next is not held by any ruler it handed out before. */
  lemma NextIdIsNew(rulers: map<string, RulerData>, counter: nat)
    requires forall k :: k in rulers ==> IssuedBelow(k, counter)
    ensures RulerId(counter) !in rulers
  {
    if RulerId(counter) in rulers {
      var n: nat :| n < counter && RulerId(counter) == RulerId(n);
      RulerIdInjective(n, counter);
    }
  }

  /** `selectRulerById`: an empty or missing id selects nothing. */
  function SelectRulerById(rulers: map<string, RulerData>, id: Option<string>): (r: Option<RulerData>)
    ensures r.Some? <==> id.Some? && id.value != "" && id.value in rulers
    ensures r.Some? ==> r.value == rulers[id.value]
  {
    if id.Some? && id.value != "" && id.value in rulers then Some(rulers[id.value]) else None
  }

  class RulerStore {
    var rulers: map<string, RulerData>
    var activeRulerId: Option<string>
    var nextRulerIdCounter: nat
    var isRulerToolActive: bool

    /** Every ruler is stored under its own id, which the counter handed out earlier. */
    ghost predicate Valid()
      reads this
    {
      nextRulerIdCounter >= 1 &&
      forall k :: k in rulers ==> rulers[k].id == k && IssuedBelow(k, nextRulerIdCounter)
    }

    constructor ()
      ensures Valid()
      ensures rulers == map[] && activeRulerId == None && nextRulerIdCounter == 1 && !isRulerToolActive
    {
      rulers := map[];
      activeRulerId := None;
      nextRulerIdCounter := 1;
      isRulerToolActive := false;
    }

    /** `addRuler`: a fresh id from the counter, the new ruler stored under it and made active. */
    method AddRuler(initialData: RulerInit) returns (id: string)
      requires Valid()
      modifies this
      ensures Valid()
      ensures id == RulerId(old(nextRulerIdCounter)) && id !in old(rulers)
      ensures rulers == old(rulers)[id := NewRuler(id, initialData)]
      ensures nextRulerIdCounter == old(nextRulerIdCounter) + 1
      ensures activeRulerId == Some(id) && isRulerToolActive == old(isRulerToolActive)
    {
      id := RulerId(nextRulerIdCounter);
      NextIdIsNew(rulers, nextRulerIdCounter);
      var newRuler := NewRuler(id, initialData);
      rulers := rulers[id := newRuler];
      nextRulerIdCounter := nextRulerIdCounter + 1;
      activeRulerId := Some(id);
      forall k | k in rulers
        ensures IssuedBelow(k, nextRulerIdCounter)
      {
        if k == id {
          assert id == RulerId(nextRulerIdCounter - 1);
        } else {
          var n: nat :| n < nextRulerIdCounter - 1 && k == RulerId(n);
        }
      }
    }

    /** `updateRulerPoint`: an unknown id changes nothing; otherwise only that ruler gets the new point. */
    method UpdateRulerPoint(id: string, pointNumber: nat, coordinates: Option<Vec3>, dist: (Vec3, Vec3) -> real)
      requires Valid() && (pointNumber == 1 || pointNumber == 2)
      modifies this
      ensures Valid()
      ensures id !in old(rulers) ==> rulers == old(rulers)
      ensures id in old(rulers) ==> rulers == old(rulers)[id := WithPoint(old(rulers)[id], pointNumber, coordinates, dist)]
      ensures activeRulerId == old(activeRulerId) && nextRulerIdCounter == old(nextRulerIdCounter)
      ensures isRulerToolActive == old(isRulerToolActive)
    {
      if id !in rulers {
        return;
      }
      rulers := rulers[id := WithPoint(rulers[id], pointNumber, coordinates, dist)];
    }

    /** `completeRulerPlacement`: only a known ruler with a first point is completed, which also ends its placement. */
    method CompleteRulerPlacement(id: string, point2: Vec3, dist: (Vec3, Vec3) -> real)
      requires Valid()
      modifies this
      ensures Valid()
      ensures !(id in old(rulers) && old(rulers)[id].point1.Some?) ==>
        rulers == old(rulers) && activeRulerId == old(activeRulerId)
      ensures id in old(rulers) && old(rulers)[id].point1.Some? ==>
        rulers == old(rulers)[id := Completed(old(rulers)[id], point2, dist)] && activeRulerId == None
      ensures nextRulerIdCounter == old(nextRulerIdCounter) && isRulerToolActive == old(isRulerToolActive)
    {
      if id !in rulers || rulers[id].point1.None? {
        return;
      }
      rulers := rulers[id := Completed(rulers[id], point2, dist)];
      activeRulerId := None;
    }

    /** `updateRulerProperties`: merges the properties into a known ruler only. */
    method UpdateRulerProperties(id: string, properties: RulerProperties)
      requires Valid()
      modifies this
      ensures Valid()
      ensures id !in old(rulers) ==> rulers == old(rulers)
      ensures id in old(rulers) ==> rulers == old(rulers)[id := Merged(old(rulers)[id], properties)]
      ensures activeRulerId == old(activeRulerId) && nextRulerIdCounter == old(nextRulerIdCounter)
      ensures isRulerToolActive == old(isRulerToolActive)
    {
      if id !in rulers {
        return;
      }
      rulers := rulers[id := Merged(rulers[id], properties)];
    }

    /** `removeRuler`: deletes the key, and ends the placement only when it was this ruler's. */
    method RemoveRuler(id: string)
      requires Valid()
      modifies this
      ensures Valid()
      ensures rulers == old(rulers) - {id}
      ensures activeRulerId == (if old(activeRulerId) == Some(id) then None else old(activeRulerId))
      ensures nextRulerIdCounter == old(nextRulerIdCounter) && isRulerToolActive == old(isRulerToolActive)
    {
      rulers := rulers - {id};
      if activeRulerId == Some(id) {
        activeRulerId := None;
      }
    }

    /** `clearAllRulers`: no rulers and no active ruler; the counter keeps counting. */
    method ClearAllRulers()
      requires Valid()
      modifies this
      ensures Valid()
      ensures rulers == map[] && activeRulerId == None
      ensures nextRulerIdCounter == old(nextRulerIdCounter) && isRulerToolActive == old(isRulerToolActive)
    {
      rulers := map[];
      activeRulerId := None;
    }

    /** `setActiveRulerId`. */
    method SetActiveRulerId(id: Option<string>)
      requires Valid()
      modifies this
      ensures Valid()
      ensures activeRulerId == id && rulers == old(rulers)
      ensures nextRulerIdCounter == old(nextRulerIdCounter) && isRulerToolActive == old(isRulerToolActive)
    {
      activeRulerId := id;
    }

    /** `setRulerToolActive`. */
    method SetRulerToolActive(active: bool)
      requires Valid()
      modifies this
      ensures Valid()
      ensures isRulerToolActive == active && rulers == old(rulers)
      ensures activeRulerId == old(activeRulerId) && nextRulerIdCounter == old(nextRulerIdCounter)
    {
      isRulerToolActive := active;
    }
  }
}
