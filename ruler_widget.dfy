/**
 * The ruler widget as seen by the viewer: how mouse presses, moves and
 * releases advance its point count and place its handles, and how `setData`
 * derives the widget's visible parts from a stored ruler.
 *
 * The manipulator's pick is abstract: a handler receives the world
 * coordinates it produced, or `None` when there is no manipulator or no
 * coordinates. The widget manager's active state is a parameter as well.
 * The callbacks and interaction events a handler fires are returned, in
 * order, as notices.
 */
module RulerWidget {
  import opened Wrappers
  import Rulers

  type Vec3 = Rulers.Vec3
  type Color = Rulers.Color

  datatype Handle = Handle(origin: Vec3, visible: bool)
  datatype Line = Line(visible: bool, color: Color)
  datatype Label = Label(visible: bool, text: string, color: Color, origin: Vec3)

  /** The widget state's part the manager makes active: a handle, with its name, manipulator and position. */
  datatype ActiveState = ActiveState(name: string, hasManipulator: bool, origin: Vec3)

  /** `macro.VOID` lets the event through; `macro.EVENT_ABORT` consumes it. */
  datatype Outcome = Void | EventAbort

  /** A callback or interaction event fired by a handler. */
  datatype Notice =
    | StartInteraction
    | Interaction
    | EndInteraction
    | Point1Placed(rulerId: Option<string>, coords: Vec3)
    | Point2Placed(rulerId: Option<string>, coords: Vec3)
    | Drag(rulerId: Option<string>, handleId: nat, coords: Vec3)
    | HandleMoved(rulerId: Option<string>, handleId: nat, coords: Vec3)

  /** The handle id reported for an active state's name. */
  function HandleId(name: string): (r: nat)
    ensures r == 1 || r == 2
    ensures r == 1 <==> name == "handle1"
  {
    if name == "handle1" then 1 else 2
  }

  /** The point count `setData` derives from a ruler. */
  function PointCountOf(d: Rulers.RulerData): nat
  {
    if d.isComplete || (d.point1.Some? && d.point2.Some?) then 2
    else if d.point1.Some? then 1
    else 0
  }

  /** A ruler the store built with `updateRulerPoint` has two points counted exactly when it is complete, one when it has only its first point. */
  lemma PlacedRulerPointCount(ruler: Rulers.RulerData, pointNumber: nat, coordinates: Option<Vec3>, dist: (Vec3, Vec3) -> real)
    requires pointNumber == 1 || pointNumber == 2
    ensures var r := Rulers.WithPoint(ruler, pointNumber, coordinates, dist);
      (PointCountOf(r) == 2 <==> r.isComplete) &&
      (PointCountOf(r) == 1 <==> r.point1.Some? && r.point2.None?) &&
      (PointCountOf(r) == 0 <==> r.point1.None?)
  {
  }

  /** The label's anchor: the point halfway between the two ruler points. */
  function Midpoint(p: Vec3, q: Vec3): (r: Vec3)
    ensures r.x - p.x == q.x - r.x && r.y - p.y == q.y - r.y && r.z - p.z == q.z - r.z
  {
    Rulers.Vec3((p.x + q.x) * 0.5, (p.y + q.y) * 0.5, (p.z + q.z) * 0.5)
  }

  /** The label text: the formatted distance, or empty when the distance is missing or zero. */
  function LabelText(distance: Option<real>, format: real -> string): (r: string)
    ensures distance.Some? && distance.value != 0.0 ==> r == format(distance.value)
    ensures distance.None? || distance.value == 0.0 ==> r == ""
  {
    if distance.Some? && distance.value != 0.0 then format(distance.value) else ""
  }

  class Widget {
    var pointCount: nat
    var handle1: Handle
    var handle2: Handle
    var line: Line
    var textLabel: Label
    var hasFocus: bool
    var rulerId: Option<string>

    /** The point count stays within the three placement stages. */
    ghost predicate Valid()
      reads this
    {
      pointCount <= 2
    }

    /** A new widget starts from `resetInternalInteractionState`; the state builder's initial origins and colors are not part of this model. */
    constructor ()
      ensures Valid()
      ensures pointCount == 0 && !handle1.visible && !handle2.visible && !line.visible
      ensures !textLabel.visible && textLabel.text == ""
    {
      var zero := Rulers.Vec3(0.0, 0.0, 0.0);
      pointCount := 0;
      handle1 := Handle(zero, false);
      handle2 := Handle(zero, false);
      line := Line(false, Rulers.DefaultRulerColor);
      textLabel := Label(false, "", Rulers.DefaultRulerColor, zero);
      hasFocus := false;
      rulerId := None;
    }

    /** `resetInternalInteractionState`: back to no points placed, every part hidden and the label text emptied. */
    method ResetInternalInteractionState()
      modifies this
      ensures Valid()
      ensures pointCount == 0
      ensures handle1 == old(handle1).(visible := false) && handle2 == old(handle2).(visible := false)
      ensures line == old(line).(visible := false)
      ensures textLabel == old(textLabel).(visible := false, text := "")
      ensures hasFocus == old(hasFocus) && rulerId == old(rulerId)
    {
      pointCount := 0;
      handle1 := handle1.(visible := false);
      handle2 := handle2.(visible := false);
      line := line.(visible := false);
      textLabel := textLabel.(visible := false, text := "");
    }

    /**
     * `handleLeftButtonPress`: the first press places both handles at the
     * point and shows them with the line; the second places handle 2; once
     * both are placed a press on an active handle only starts an interaction.
     */
    method HandleLeftButtonPress(hit: Option<Vec3>, active: Option<ActiveState>) returns (outcome: Outcome, notices: seq<Notice>)
      requires Valid()
      modifies this
      ensures Valid()
      ensures line.color == old(line.color) && textLabel == old(textLabel)
      ensures hasFocus == old(hasFocus) && rulerId == old(rulerId)
      ensures pointCount == if hit.Some? && old(pointCount) < 2 then old(pointCount) + 1 else old(pointCount)
      ensures hit.None? ==> outcome == Void && notices == []
      ensures hit.None? || old(pointCount) == 2 ==> handle1 == old(handle1) && handle2 == old(handle2) && line == old(line)
      ensures hit.Some? && old(pointCount) == 0 ==>
        handle1 == Handle(hit.value, true) && handle2 == Handle(hit.value, true) && line.visible &&
        outcome == EventAbort && notices == [StartInteraction, Point1Placed(rulerId, hit.value)]
      ensures hit.Some? && old(pointCount) == 1 ==>
        handle1 == old(handle1) && handle2 == old(handle2).(origin := hit.value) && line == old(line) &&
        outcome == EventAbort && notices == [EndInteraction, Point2Placed(rulerId, hit.value)]
      ensures hit.Some? && old(pointCount) == 2 && active.Some? && active.value.hasManipulator ==>
        outcome == EventAbort && notices == [StartInteraction]
      ensures hit.Some? && old(pointCount) == 2 && !(active.Some? && active.value.hasManipulator) ==>
        outcome == Void && notices == []
    {
      if hit.None? {
        return Void, [];
      }
      var worldCoords := hit.value;
      if pointCount == 0 {
        handle1 := Handle(worldCoords, true);
        handle2 := Handle(worldCoords, true);
        line := line.(visible := true);
        pointCount := 1;
        return EventAbort, [StartInteraction, Point1Placed(rulerId, worldCoords)];
      } else if pointCount == 1 {
        handle2 := handle2.(origin := worldCoords);
        pointCount := 2;
        return EventAbort, [EndInteraction, Point2Placed(rulerId, worldCoords)];
      }
      if active.Some? && active.value.hasManipulator {
        return EventAbort, [StartInteraction];
      }
      return Void, [];
    }

    /**
     * `handleMouseMove`: while the second point is being placed, handle 2
     * follows the mouse; once both are placed, dragging an active handle
     * reports that handle's position. Nothing else changes.
     */
    method HandleMouseMove(hit: Option<Vec3>, active: Option<ActiveState>) returns (outcome: Outcome, notices: seq<Notice>)
      requires Valid()
      modifies this
      ensures Valid()
      ensures pointCount == old(pointCount) && handle1 == old(handle1) && line == old(line) && textLabel == old(textLabel)
      ensures hasFocus == old(hasFocus) && rulerId == old(rulerId)
      ensures hit.Some? && old(pointCount) == 1 ==>
        handle2 == old(handle2).(origin := hit.value) &&
        outcome == EventAbort && notices == [Interaction, Drag(rulerId, 2, hit.value)]
      ensures !(hit.Some? && old(pointCount) == 1) ==> handle2 == old(handle2)
      ensures hit.Some? && old(pointCount) == 2 && active.Some? && active.value.hasManipulator ==>
        outcome == EventAbort &&
        notices == [HandleMoved(rulerId, HandleId(active.value.name), active.value.origin), Interaction]
      ensures outcome == EventAbort <==> hit.Some? && (old(pointCount) == 1 || (old(pointCount) == 2 && active.Some? && active.value.hasManipulator))
      ensures outcome == Void ==> notices == []
    {
      if hit.None? {
        return Void, [];
      }
      var worldCoords := hit.value;
      if pointCount == 1 {
        handle2 := handle2.(origin := worldCoords);
        return EventAbort, [Interaction, Drag(rulerId, 2, worldCoords)];
      }
      if active.Some? && active.value.hasManipulator && pointCount == 2 {
        var handleId := HandleId(active.value.name);
        return EventAbort, [HandleMoved(rulerId, handleId, active.value.origin), Interaction];
      }
      return Void, [];
    }

    /** `handleLeftButtonRelease`: consumed only with both points placed and an active state, reporting a handle's final position. */
    method HandleLeftButtonRelease(active: Option<ActiveState>) returns (outcome: Outcome, notices: seq<Notice>)
      ensures outcome == EventAbort <==> pointCount == 2 && active.Some?
      ensures outcome == Void ==> notices == []
      ensures outcome == EventAbort && (active.value.name == "handle1" || active.value.name == "handle2") ==>
        notices == [HandleMoved(rulerId, HandleId(active.value.name), active.value.origin), EndInteraction]
      ensures outcome == EventAbort && active.value.name != "handle1" && active.value.name != "handle2" ==>
        notices == [EndInteraction]
    {
      if pointCount == 2 && active.Some? {
        var name := active.value.name;
        if name == "handle1" || name == "handle2" {
          var handleId := HandleId(name);
          notices := [HandleMoved(rulerId, handleId, active.value.origin)];
        } else {
          notices := [];
        }
        return EventAbort, notices + [EndInteraction];
      }
      return Void, [];
    }

    /** `grabFocus`. */
    method GrabFocus()
      modifies this
      ensures hasFocus
      ensures pointCount == old(pointCount) && handle1 == old(handle1) && handle2 == old(handle2)
      ensures line == old(line) && textLabel == old(textLabel) && rulerId == old(rulerId)
    {
      hasFocus := true;
    }

    /** `loseFocus`: the point count is kept, so a placement interrupted by losing focus resumes where it stopped. */
    method LoseFocus()
      modifies this
      ensures !hasFocus
      ensures pointCount == old(pointCount) && handle1 == old(handle1) && handle2 == old(handle2)
      ensures line == old(line) && textLabel == old(textLabel) && rulerId == old(rulerId)
    {
      hasFocus := false;
    }

    /**
     * `setData`: without a ruler, the interaction state is reset and the
     * ruler id cleared; with one, every part's position and visibility and
     * the point count are derived from the ruler.
     */
    method SetData(data: Option<Rulers.RulerData>, format: real -> string)
      modifies this
      ensures Valid()
      ensures hasFocus == old(hasFocus)
      ensures data.None? ==>
        rulerId == None && pointCount == 0 && !handle1.visible && !handle2.visible && !line.visible &&
        !textLabel.visible && textLabel.text == ""
      ensures data.Some? ==> rulerId == Some(data.value.id) && pointCount == PointCountOf(data.value)
      ensures data.Some? ==> (handle1.visible <==> data.value.point1.Some? && data.value.handlesVisible)
      ensures data.Some? ==> handle1.origin == (if data.value.point1.Some? then data.value.point1.value else old(handle1.origin))
      ensures data.Some? && data.value.point2.Some? ==> handle2 == Handle(data.value.point2.value, data.value.handlesVisible)
      ensures data.Some? && data.value.point2.None? ==>
        handle2.origin == old(handle2.origin) &&
        (handle2.visible <==> data.value.point1.Some? && !data.value.isComplete && data.value.handlesVisible)
      ensures data.Some? ==> (line.visible <==> data.value.point1.Some? && data.value.point2.Some? && data.value.lineVisible)
      ensures data.Some? ==> line.color == if line.visible then data.value.color else old(line.color)
      ensures data.Some? ==> (textLabel.visible <==> data.value.point1.Some? && data.value.point2.Some? && data.value.labelVisible)
      ensures data.Some? && textLabel.visible ==>
        textLabel.text == LabelText(data.value.distance, format) && textLabel.color == data.value.color &&
        textLabel.origin == Midpoint(data.value.point1.value, data.value.point2.value)
      ensures data.Some? && !textLabel.visible ==>
        textLabel.text == old(textLabel.text) && textLabel.color == old(textLabel.color) && textLabel.origin == old(textLabel.origin)
      ensures line.visible || textLabel.visible ==> pointCount == 2
    {
      if data.None? {
        ResetInternalInteractionState();
        rulerId := None;
        return;
      }
      var d := data.value;
      rulerId := Some(d.id);

      if d.point1.Some? {
        handle1 := Handle(d.point1.value, d.handlesVisible);
      } else {
        handle1 := handle1.(visible := false);
      }

      if d.point2.Some? {
        handle2 := Handle(d.point2.value, d.handlesVisible);
      } else {
        handle2 := handle2.(visible := d.point1.Some? && !d.isComplete && d.handlesVisible);
      }

      var lineShouldBeVisible := d.point1.Some? && d.point2.Some? && d.lineVisible;
      line := line.(visible := lineShouldBeVisible);
      if lineShouldBeVisible {
        line := line.(color := d.color);
      }

      var labelShouldBeVisible := d.point1.Some? && d.point2.Some? && d.labelVisible;
      textLabel := textLabel.(visible := labelShouldBeVisible);
      if labelShouldBeVisible {
        textLabel := textLabel.(text := LabelText(d.distance, format), color := d.color,
                        origin := Midpoint(d.point1.value, d.point2.value));
      }

      if d.isComplete || (d.point1.Some? && d.point2.Some?) {
        pointCount := 2;
      } else if d.point1.Some? {
        pointCount := 1;
      } else {
        pointCount := 0;
      }
    }
  }

  /**
   * A widget showing a stored ruler that has only its first point is in the
   * middle of placement: the next press with a pick places the second point.
   */
  method ResumePlacement(w: Widget, d: Rulers.RulerData, format: real -> string, p: Vec3) returns (notices: seq<Notice>)
    requires d.point1.Some? && d.point2.None? && !d.isComplete
    modifies w
    ensures w.pointCount == 2 && w.handle2.origin == p
    ensures notices == [EndInteraction, Point2Placed(Some(d.id), p)]
  {
    w.SetData(Some(d), format);
    var outcome;
    outcome, notices := w.HandleLeftButtonPress(Some(p), None);
  }
}
