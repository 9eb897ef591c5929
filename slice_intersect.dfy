/**
 * The slice–contour intersector of the ROI overlay: which contours of a
 * region of interest lie on the displayed slice, and the flat point and
 * connectivity arrays (VTK cell-array layout: a count followed by that
 * many point ids) for their outlines and fills. The VTK containers the
 * arrays are handed to are not modelled.
 */
module SliceIntersect {
  import opened Wrappers
  import opened RTParser

  /** `LPSAxisDir`: the direction the view looks along. */
  datatype AxisDir = Left | Right | Posterior | Anterior | Superior | Inferior

  datatype Vec3 = Vec3(x: real, y: real, z: real)

  /** The image metadata fields the intersector reads; either may be missing. */
  datatype Metadata = Metadata(origin: Option<Vec3>, spacing: Option<Vec3>)

  /** A running minimum that starts at `Infinity`. */
  datatype Distance = Infinite | Finite(value: real)

  const DefaultTolerance: real := 0.5

  /** The coordinate index held fixed by the view: 2 for axial, 1 for coronal, 0 for sagittal. */
  function AxisOf(dir: AxisDir): (axis: nat)
    ensures axis < 3
    ensures axis == 2 <==> dir == Superior || dir == Inferior
    ensures axis == 1 <==> dir == Posterior || dir == Anterior
  {
    if dir == Superior || dir == Inferior then 2
    else if dir == Posterior || dir == Anterior then 1
    else 0
  }

  function Component(v: Vec3, axis: nat): real
    requires axis < 3
  {
    if axis == 0 then v.x else if axis == 1 then v.y else v.z
  }

  function Coord(p: ContourPoint, axis: nat): real
    requires axis < 3
  {
    if axis == 0 then p.x else if axis == 1 then p.y else p.z
  }

  /** The slice's world coordinate: `origin[axis] + index * spacing[axis]` when both are known, the raw index otherwise. */
  function SlicePosition(index: real, axis: nat, metadata: Option<Metadata>): (r: real)
    requires axis < 3
    ensures metadata.Some? && metadata.value.origin.Some? && metadata.value.spacing.Some? ==>
      r == Component(metadata.value.origin.value, axis) + index * Component(metadata.value.spacing.value, axis)
    ensures !(metadata.Some? && metadata.value.origin.Some? && metadata.value.spacing.Some?) ==> r == index
  {
    match metadata
    case Some(Metadata(Some(origin), Some(spacing))) => Component(origin, axis) + index * Component(spacing, axis)
    case _ => index
  }

  function Abs(x: real): real
  {
    if x < 0.0 then -x else x
  }

  function Dist(p: ContourPoint, axis: nat, pos: real): real
    requires axis < 3
  {
    Abs(Coord(p, axis) - pos)
  }

  /** The smallest distance of a point of a non-empty contour to the slice. */
  function MinDistance(points: seq<ContourPoint>, axis: nat, pos: real): real
    requires |points| > 0 && axis < 3
  {
    if |points| == 1 then Dist(points[0], axis, pos)
    else
      var m := MinDistance(points[..|points| - 1], axis, pos);
      var d := Dist(points[|points| - 1], axis, pos);
      if d < m then d else m
  }

  /** `Math.min` against a running minimum that may still be `Infinity`. */
  function MinWith(m: Distance, d: real): real
  {
    match m
    case Infinite => d
    case Finite(v) => if d < v then d else v
  }

  /** The minimum is a lower bound of every point's distance and is attained by some point. */
  lemma {:induction false} MinDistanceSpec(points: seq<ContourPoint>, axis: nat, pos: real)
    requires |points| > 0 && axis < 3
    ensures forall i :: 0 <= i < |points| ==> MinDistance(points, axis, pos) <= Dist(points[i], axis, pos)
    ensures exists i :: 0 <= i < |points| && MinDistance(points, axis, pos) == Dist(points[i], axis, pos)
  {
    if |points| == 1 {
      assert MinDistance(points, axis, pos) == Dist(points[0], axis, pos);
    } else {
      var init := points[..|points| - 1];
      var last := |points| - 1;
      MinDistanceSpec(init, axis, pos);
      assert forall i :: 0 <= i < |init| ==> init[i] == points[i];
      var k :| 0 <= k < |init| && MinDistance(init, axis, pos) == Dist(init[k], axis, pos);
      var m := MinDistance(init, axis, pos);
      var d := Dist(points[last], axis, pos);
      assert MinDistance(points, axis, pos) == if d < m then d else m;
      if d < m {
        assert 0 <= last < |points| && MinDistance(points, axis, pos) == Dist(points[last], axis, pos);
      } else {
        assert 0 <= k < |points| && MinDistance(points, axis, pos) == Dist(points[k], axis, pos);
      }
    }
  }

  /** A contour intersects the slice when it has points and its closest point is within the tolerance. */
  predicate OnSlice(points: seq<ContourPoint>, axis: nat, pos: real, tolerance: real)
    requires axis < 3
  {
    |points| > 0 && MinDistance(points, axis, pos) <= tolerance
  }

  /** Intersecting the slice is having some point within the tolerance of it. */
  lemma OnSliceSpec(points: seq<ContourPoint>, axis: nat, pos: real, tolerance: real)
    requires axis < 3
    ensures OnSlice(points, axis, pos, tolerance) <==> exists i :: 0 <= i < |points| && Dist(points[i], axis, pos) <= tolerance
  {
    if |points| > 0 {
      MinDistanceSpec(points, axis, pos);
    }
  }

  /** The point lists of the contours on the slice, in contour order. */
  function ContoursNear(contours: seq<RoiContour>, axis: nat, pos: real, tolerance: real): seq<seq<ContourPoint>>
    requires axis < 3
  {
    if |contours| == 0 then []
    else
      var init := ContoursNear(contours[..|contours| - 1], axis, pos, tolerance);
      var c := contours[|contours| - 1].contourData;
      if OnSlice(c, axis, pos, tolerance) then init + [c] else init
  }

  /** A point list is returned exactly when it is the data of an input contour that lies on the slice. */
  lemma {:induction false} ContoursNearSpec(contours: seq<RoiContour>, axis: nat, pos: real, tolerance: real)
    requires axis < 3
    ensures forall c :: c in ContoursNear(contours, axis, pos, tolerance) <==>
      exists i :: 0 <= i < |contours| && contours[i].contourData == c && OnSlice(c, axis, pos, tolerance)
  {
    if |contours| > 0 {
      var init := contours[..|contours| - 1];
      ContoursNearSpec(init, axis, pos, tolerance);
      assert forall i :: 0 <= i < |init| ==> init[i] == contours[i];
    }
  }

  /** `findContoursForSlice`. */
  method FindContoursForSlice(roi: Roi, dir: AxisDir, slicePosition: real, metadata: Option<Metadata>, tolerance: real := DefaultTolerance)
    returns (result: seq<seq<ContourPoint>>)
    ensures result == ContoursNear(roi.rtroiContours, AxisOf(dir), SlicePosition(slicePosition, AxisOf(dir), metadata), tolerance)
  {
    var axis := AxisOf(dir);
    var pos := SlicePosition(slicePosition, axis, metadata);
    var contours := roi.rtroiContours;
    result := [];
    for i := 0 to |contours|
      invariant result == ContoursNear(contours[..i], axis, pos, tolerance)
    {
      assert contours[..i + 1][..i] == contours[..i];
      var points := contours[i].contourData;
      if |points| == 0 {
        continue;
      }
      var minDist := Infinite;
      for j := 0 to |points|
        invariant j == 0 <==> minDist.Infinite?
        invariant j > 0 ==> minDist == Finite(MinDistance(points[..j], axis, pos))
      {
        assert points[..j + 1][..j] == points[..j];
        minDist := Finite(MinWith(minDist, Abs(Coord(points[j], axis) - pos)));
      }
      assert points[..|points|] == points;
      if minDist.value <= tolerance {
        result := result + [points];
      }
    }
    assert contours[..|contours|] == contours;
  }

  // ---- Outline and fill arrays ----

  /** The order in which the three coordinates are emitted: in-plane axes first, the fixed axis last. */
  function Plane(axis: nat): (p: seq<nat>)
    requires axis < 3
    ensures |p| == 3 && p[2] == axis && forall i :: 0 <= i < 3 ==> p[i] < 3
    ensures p[0] < p[1] && p[0] != axis && p[1] != axis
  {
    if axis == 2 then [0, 1, 2] else if axis == 1 then [0, 2, 1] else [1, 2, 0]
  }

  /** A point as emitted: its fixed coordinate replaced by the slice position, then reordered by the plane. */
  function Project(p: ContourPoint, axis: nat, pos: real): (r: seq<real>)
    requires axis < 3
    ensures |r| == 3 && r[2] == pos
    ensures axis == 2 ==> r == [p.x, p.y, pos]
    ensures axis == 1 ==> r == [p.x, p.z, pos]
    ensures axis == 0 ==> r == [p.y, p.z, pos]
  {
    var coords := [p.x, p.y, p.z][axis := pos];
    var plane := Plane(axis);
    [coords[plane[0]], coords[plane[1]], coords[plane[2]]]
  }

  function ProjectAll(points: seq<ContourPoint>, axis: nat, pos: real): (r: seq<real>)
    requires axis < 3
    ensures |r| == 3 * |points|
  {
    if |points| == 0 then []
    else ProjectAll(points[..|points| - 1], axis, pos) + Project(points[|points| - 1], axis, pos)
  }

  /** The j-th point's three numbers sit at position 3j. */
  lemma {:induction false} ProjectAllAt(points: seq<ContourPoint>, axis: nat, pos: real, j: nat)
    requires axis < 3 && j < |points|
    ensures ProjectAll(points, axis, pos)[3 * j..3 * j + 3] == Project(points[j], axis, pos)
  {
    var init := points[..|points| - 1];
    if j < |init| {
      ProjectAllAt(init, axis, pos, j);
      assert ProjectAll(points, axis, pos)[3 * j..3 * j + 3] == ProjectAll(init, axis, pos)[3 * j..3 * j + 3];
    }
  }

  /** Contours with fewer than three points are skipped by both builders. */
  function Kept(contours: seq<seq<ContourPoint>>): (r: seq<seq<ContourPoint>>)
    ensures forall k :: 0 <= k < |r| ==> |r[k]| >= 3
  {
    if |contours| == 0 then []
    else
      var c := contours[|contours| - 1];
      Kept(contours[..|contours| - 1]) + (if |c| < 3 then [] else [c])
  }

  function Total<T>(lists: seq<seq<T>>): nat
  {
    if |lists| == 0 then 0 else Total(lists[..|lists| - 1]) + |lists[|lists| - 1]|
  }

  /** The points array both builders fill: every point of every kept contour, projected, in order. */
  function Points(contours: seq<seq<ContourPoint>>, axis: nat, pos: real): seq<real>
    requires axis < 3
  {
    if |contours| == 0 then []
    else
      var c := contours[|contours| - 1];
      Points(contours[..|contours| - 1], axis, pos) + (if |c| < 3 then [] else ProjectAll(c, axis, pos))
  }

  /** The ids `start, start + 1, ..., start + n - 1`. */
  function Range(start: int, n: nat): (r: seq<int>)
    ensures |r| == n
  {
    if n == 0 then [] else Range(start, n - 1) + [start + n - 1]
  }

  lemma {:induction false} RangeAt(start: int, n: nat)
    ensures forall i :: 0 <= i < n ==> Range(start, n)[i] == start + i
  {
    if n > 0 {
      RangeAt(start, n - 1);
    }
  }

  /** The point ids of one cell: the contour's points, and for a closed outline its first point again. */
  function CellIds(start: int, n: nat, closed: bool): seq<int>
  {
    Range(start, n) + (if closed then [start] else [])
  }

  /** The connectivity array: for the outline builder `closed` cells, for the fill builder open ones. */
  function Cells(contours: seq<seq<ContourPoint>>, closed: bool): seq<int>
  {
    if |contours| == 0 then []
    else
      var init := contours[..|contours| - 1];
      var c := contours[|contours| - 1];
      var ids := CellIds(Total(Kept(init)), |c|, closed);
      Cells(init, closed) + (if |c| < 3 then [] else [|ids|] + ids)
  }

  /** One more contour extends both arrays by its part alone. */
  lemma Snoc(contours: seq<seq<ContourPoint>>, i: nat, axis: nat, pos: real, closed: bool)
    requires i < |contours| && axis < 3
    ensures Points(contours[..i + 1], axis, pos) ==
      Points(contours[..i], axis, pos) + (if |contours[i]| < 3 then [] else ProjectAll(contours[i], axis, pos))
    ensures var ids := CellIds(Total(Kept(contours[..i])), |contours[i]|, closed);
      Cells(contours[..i + 1], closed) == Cells(contours[..i], closed) + (if |contours[i]| < 3 then [] else [|ids|] + ids)
  {
    assert contours[..i + 1][..i] == contours[..i];
  }

  /** The step of both builders' outer loop: what contour `c` adds to arrays built from the contours before it. */
  lemma Step(contours: seq<seq<ContourPoint>>, c: nat, axis: nat, pos: real, closed: bool, points: seq<real>, cells: seq<int>)
    requires c < |contours| && axis < 3
    requires points == Points(contours[..c], axis, pos) && cells == Cells(contours[..c], closed)
    ensures |points| / 3 == Total(Kept(contours[..c]))
    ensures |contours[c]| < 3 ==> Points(contours[..c + 1], axis, pos) == points && Cells(contours[..c + 1], closed) == cells
    ensures |contours[c]| >= 3 ==>
      var ids := CellIds(|points| / 3, |contours[c]|, closed);
      Points(contours[..c + 1], axis, pos) == points + ProjectAll(contours[c], axis, pos) &&
      Cells(contours[..c + 1], closed) == cells + [|ids|] + ids
  {
    PointsLength(contours[..c], axis, pos);
    Snoc(contours, c, axis, pos, closed);
  }

  /** The inner loop of both builders: one contour's points pushed onto the points array. */
  method PushPoints(points: seq<real>, contour: seq<ContourPoint>, axis: nat, pos: real) returns (r: seq<real>)
    requires axis < 3
    ensures r == points + ProjectAll(contour, axis, pos)
  {
    r := points;
    for j := 0 to |contour|
      invariant r == points + ProjectAll(contour[..j], axis, pos)
    {
      assert contour[..j + 1][..j] == contour[..j];
      var coords := [contour[j].x, contour[j].y, contour[j].z][axis := pos];
      var plane := Plane(axis);
      r := r + [coords[plane[0]], coords[plane[1]], coords[plane[2]]];
    }
    assert contour[..|contour|] == contour;
  }

  /** The ids `start .. start + n - 1` pushed onto a connectivity array. */
  method PushIds(cells: seq<int>, start: int, n: nat) returns (r: seq<int>)
    ensures r == cells + Range(start, n)
  {
    r := cells;
    for i := 0 to n
      invariant r == cells + Range(start, i)
    {
      r := r + [start + i];
    }
  }

  /** One kept contour's part of the outline arrays: its points, then the closed cell over their ids. */
  method PushLineCell(points: seq<real>, lines: seq<int>, contour: seq<ContourPoint>, axis: nat, pos: real)
    returns (points': seq<real>, lines': seq<int>)
    requires axis < 3
    ensures var ids := CellIds(|points| / 3, |contour|, true);
      points' == points + ProjectAll(contour, axis, pos) && lines' == lines + [|ids|] + ids
  {
    var startIndex := |points| / 3;
    var pointCount := |contour|;
    points' := PushPoints(points, contour, axis, pos);
    lines' := lines + [pointCount + 1];
    lines' := PushIds(lines', startIndex, pointCount);
    lines' := lines' + [startIndex];
    assert lines' == lines + [pointCount + 1] + CellIds(startIndex, pointCount, true);
  }

  /** One kept contour's part of the fill arrays: its points, then the open cell over their ids. */
  method PushFillCell(points: seq<real>, polys: seq<int>, contour: seq<ContourPoint>, axis: nat, pos: real)
    returns (points': seq<real>, polys': seq<int>)
    requires axis < 3
    ensures var ids := CellIds(|points| / 3, |contour|, false);
      points' == points + ProjectAll(contour, axis, pos) && polys' == polys + [|ids|] + ids
  {
    var startIndex := |points| / 3;
    points' := PushPoints(points, contour, axis, pos);
    polys' := polys + [|contour|];
    polys' := PushIds(polys', startIndex, |contour|);
    assert polys' == polys + [|contour|] + CellIds(startIndex, |contour|, false);
  }

  /** `createContourLinesPolyData`: the points and line arrays. */
  method CreateContourLines(contours: seq<seq<ContourPoint>>, dir: AxisDir, slicePosition: real, metadata: Option<Metadata>)
    returns (points: seq<real>, lines: seq<int>)
    ensures var axis := AxisOf(dir);
      var pos := SlicePosition(slicePosition, axis, metadata);
      points == Points(contours, axis, pos) && lines == Cells(contours, true)
  {
    var axis := AxisOf(dir);
    var pos := SlicePosition(slicePosition, axis, metadata);
    points := [];
    lines := [];
    for c := 0 to |contours|
      invariant points == Points(contours[..c], axis, pos) && lines == Cells(contours[..c], true)
    {
      Step(contours, c, axis, pos, true, points, lines);
      var contour := contours[c];
      if |contour| < 3 {
        continue;
      }
      // The source guards the cell with `pointCount > 0`, which always holds here.
      points, lines := PushLineCell(points, lines, contour, axis, pos);
    }
    assert contours[..|contours|] == contours;
  }

  /** `createContourFillsPolyData`: the points and polygon arrays. */
  method CreateContourFills(contours: seq<seq<ContourPoint>>, dir: AxisDir, slicePosition: real, metadata: Option<Metadata>)
    returns (points: seq<real>, polys: seq<int>)
    ensures var axis := AxisOf(dir);
      var pos := SlicePosition(slicePosition, axis, metadata);
      points == Points(contours, axis, pos) && polys == Cells(contours, false)
  {
    var axis := AxisOf(dir);
    var pos := SlicePosition(slicePosition, axis, metadata);
    points := [];
    polys := [];
    for c := 0 to |contours|
      invariant points == Points(contours[..c], axis, pos) && polys == Cells(contours[..c], false)
    {
      Step(contours, c, axis, pos, false, points, polys);
      var contour := contours[c];
      if |contour| < 3 {
        continue;
      }
      points, polys := PushFillCell(points, polys, contour, axis, pos);
    }
    assert contours[..|contours|] == contours;
  }

  // ---- Reading the arrays back ----

  /** Reads a VTK cell array back into its cells; `None` when a count runs past the end. */
  function DecodeCells(cells: seq<int>): Option<seq<seq<int>>>
    decreases |cells|
  {
    if |cells| == 0 then Some([])
    else if cells[0] < 0 || |cells| < 1 + cells[0] then None
    else
      match DecodeCells(cells[1 + cells[0]..])
      case None => None
      case Some(rest) => Some([cells[1..1 + cells[0]]] + rest)
  }

  function Concat(x: seq<seq<int>>, y: Option<seq<seq<int>>>): Option<seq<seq<int>>>
  {
    match y
    case None => None
    case Some(v) => Some(x + v)
  }

  lemma {:induction false} DecodeAppend(a: seq<int>, b: seq<int>, x: seq<seq<int>>)
    requires DecodeCells(a) == Some(x)
    ensures DecodeCells(a + b) == Concat(x, DecodeCells(b))
    decreases |a|
  {
    if |a| > 0 {
      var n := a[0];
      var rest := DecodeCells(a[1 + n..]).value;
      assert (a + b)[1 + n..] == a[1 + n..] + b;
      assert (a + b)[1..1 + n] == a[1..1 + n];
      DecodeAppend(a[1 + n..], b, rest);
      assert x == [a[1..1 + n]] + rest;
      if DecodeCells(b).Some? {
        var v := DecodeCells(b).value;
        assert [a[1..1 + n]] + (rest + v) == x + v;
      }
    } else {
      assert a + b == b;
      if DecodeCells(b).Some? {
        assert x + DecodeCells(b).value == DecodeCells(b).value;
      }
    }
  }

  /** Where the k-th kept contour's points start. */
  function Offset(kept: seq<seq<ContourPoint>>, k: nat): nat
    requires k <= |kept|
  {
    Total(kept[..k])
  }

  /** The cells one expects: for each kept contour, its `n` consecutive point ids from its offset (closed again for outlines). */
  function ExpectedCells(contours: seq<seq<ContourPoint>>, closed: bool): seq<seq<int>>
  {
    var kept := Kept(contours);
    seq(|kept|, k requires 0 <= k < |kept| => CellIds(Offset(kept, k), |kept[k]|, closed))
  }

  /** The connectivity array reads back as one cell per kept contour, holding that contour's consecutive point ids. */
  lemma DecodeOneCell(ids: seq<int>)
    ensures DecodeCells([|ids|] + ids) == Some([ids])
  {
    var cell := [|ids|] + ids;
    assert cell[1 + |ids|..] == [];
    assert cell[1..1 + |ids|] == ids;
    assert [ids] + [] == [ids];
  }

  /** A kept last contour adds one expected cell; a skipped one adds none. */
  lemma ExpectedSnoc(contours: seq<seq<ContourPoint>>, closed: bool)
    requires |contours| > 0
    ensures var init := contours[..|contours| - 1];
      var c := contours[|contours| - 1];
      ExpectedCells(contours, closed) ==
        ExpectedCells(init, closed) + (if |c| < 3 then [] else [CellIds(Total(Kept(init)), |c|, closed)])
  {
    var init := contours[..|contours| - 1];
    var c := contours[|contours| - 1];
    var kept := Kept(contours);
    var keptInit := Kept(init);
    if |c| >= 3 {
      assert kept == keptInit + [c];
      forall k | 0 <= k < |keptInit|
        ensures Offset(kept, k) == Offset(keptInit, k)
      {
        assert kept[..k] == keptInit[..k];
      }
      assert kept[..|keptInit|] == keptInit;
    } else {
      assert kept == keptInit;
    }
  }

  /** The connectivity array reads back as one cell per kept contour, holding that contour's consecutive point ids. */
  lemma {:induction false} CellsDecode(contours: seq<seq<ContourPoint>>, closed: bool)
    ensures DecodeCells(Cells(contours, closed)) == Some(ExpectedCells(contours, closed))
  {
    if |contours| > 0 {
      var init := contours[..|contours| - 1];
      var c := contours[|contours| - 1];
      CellsDecode(init, closed);
      ExpectedSnoc(contours, closed);
      var ids := CellIds(Total(Kept(init)), |c|, closed);
      if |c| >= 3 {
        DecodeOneCell(ids);
        DecodeAppend(Cells(init, closed), [|ids|] + ids, ExpectedCells(init, closed));
      } else {
        assert Cells(contours, closed) == Cells(init, closed) + [];
        assert Cells(init, closed) + [] == Cells(init, closed);
        assert ExpectedCells(init, closed) + [] == ExpectedCells(init, closed);
      }
    } else {
      assert ExpectedCells(contours, closed) == [];
    }
  }

  lemma {:induction false} TotalPrefix<T>(lists: seq<seq<T>>, k: nat)
    requires k < |lists|
    ensures Total(lists[..k]) + |lists[k]| <= Total(lists)
    decreases |lists|
  {
    var init := lists[..|lists| - 1];
    if k < |init| {
      TotalPrefix(init, k);
      assert init[..k] == lists[..k];
    } else {
      assert lists[..k] == init;
    }
  }

  /**
   * Every point id in the connectivity arrays names an emitted point: the
   * ids of the k-th kept contour run from its offset to below the total
   * number of points, which is a third of the length of the points array.
   */
  lemma CellIdsInRange(contours: seq<seq<ContourPoint>>, closed: bool, axis: nat, pos: real)
    requires axis < 3
    ensures |Points(contours, axis, pos)| == 3 * Total(Kept(contours))
    ensures forall k, i :: 0 <= k < |ExpectedCells(contours, closed)| && 0 <= i < |ExpectedCells(contours, closed)[k]| ==>
      0 <= ExpectedCells(contours, closed)[k][i] < Total(Kept(contours))
  {
    PointsLength(contours, axis, pos);
    var kept := Kept(contours);
    forall k | 0 <= k < |kept|
      ensures Offset(kept, k) + |kept[k]| <= Total(kept)
      ensures forall i :: 0 <= i < |kept[k]| ==> Range(Offset(kept, k), |kept[k]|)[i] == Offset(kept, k) + i
    {
      TotalPrefix(kept, k);
      RangeAt(Offset(kept, k), |kept[k]|);
    }
  }

  lemma {:induction false} PointsLength(contours: seq<seq<ContourPoint>>, axis: nat, pos: real)
    requires axis < 3
    ensures |Points(contours, axis, pos)| == 3 * Total(Kept(contours))
  {
    if |contours| > 0 {
      var init := contours[..|contours| - 1];
      var c := contours[|contours| - 1];
      PointsLength(init, axis, pos);
      if |c| >= 3 {
        assert Kept(contours)[..|Kept(contours)| - 1] == Kept(init);
      } else {
        assert Kept(contours) == Kept(init);
      }
    }
  }

  lemma SliceOfConcat(a: seq<real>, b: seq<real>, at: nat)
    requires at + 3 <= |a| + |b|
    ensures at + 3 <= |a| ==> (a + b)[at..at + 3] == a[at..at + 3]
    ensures at >= |a| ==> (a + b)[at..at + 3] == b[at - |a|..at - |a| + 3]
  {
  }

  /** Point id `Offset(k) + j` is the j-th point of the k-th kept contour, projected onto the slice. */
  lemma {:induction false} PointsAt(contours: seq<seq<ContourPoint>>, axis: nat, pos: real, k: nat, j: nat)
    requires axis < 3 && k < |Kept(contours)| && j < |Kept(contours)[k]|
    ensures 3 * (Offset(Kept(contours), k) + j) + 3 <= |Points(contours, axis, pos)|
    ensures var at := 3 * (Offset(Kept(contours), k) + j);
      Points(contours, axis, pos)[at..at + 3] == Project(Kept(contours)[k][j], axis, pos)
  {
    var init := contours[..|contours| - 1];
    var c := contours[|contours| - 1];
    assert Kept(contours) == Kept(init) + (if |c| < 3 then [] else [c]);
    if k < |Kept(init)| {
      PointsAt(init, axis, pos, k, j);
      PointsAtEarlier(contours, axis, pos, k, j);
    } else {
      assert |c| >= 3 && k == |Kept(contours)| - 1 && Kept(contours)[k] == c;
      PointsAtLast(contours, axis, pos, j);
    }
  }

  /** A point of an earlier kept contour keeps its place when a contour is appended. */
  lemma PointsAtEarlier(contours: seq<seq<ContourPoint>>, axis: nat, pos: real, k: nat, j: nat)
    requires axis < 3 && |contours| > 0
    requires var init := contours[..|contours| - 1];
      k < |Kept(init)| && j < |Kept(init)[k]| &&
      3 * (Offset(Kept(init), k) + j) + 3 <= |Points(init, axis, pos)| &&
      var at := 3 * (Offset(Kept(init), k) + j);
      Points(init, axis, pos)[at..at + 3] == Project(Kept(init)[k][j], axis, pos)
    ensures k < |Kept(contours)| && j < |Kept(contours)[k]|
    ensures 3 * (Offset(Kept(contours), k) + j) + 3 <= |Points(contours, axis, pos)|
    ensures var at := 3 * (Offset(Kept(contours), k) + j);
      Points(contours, axis, pos)[at..at + 3] == Project(Kept(contours)[k][j], axis, pos)
  {
    var init := contours[..|contours| - 1];
    var c := contours[|contours| - 1];
    var kept, keptInit := Kept(contours), Kept(init);
    var tail := if |c| < 3 then [] else ProjectAll(c, axis, pos);
    assert Points(contours, axis, pos) == Points(init, axis, pos) + tail;
    assert kept == keptInit + (if |c| < 3 then [] else [c]);
    assert kept[..k] == keptInit[..k] && kept[k] == keptInit[k];
    var at := 3 * (Offset(kept, k) + j);
    SliceOfConcat(Points(init, axis, pos), tail, at);
  }

  /** The points of a kept last contour follow every earlier point, in order. */
  lemma PointsAtLast(contours: seq<seq<ContourPoint>>, axis: nat, pos: real, j: nat)
    requires axis < 3 && |contours| > 0
    requires var c := contours[|contours| - 1]; |c| >= 3 && j < |c|
    ensures var k := |Kept(contours)| - 1;
      0 <= k && Kept(contours)[k] == contours[|contours| - 1] &&
      3 * (Offset(Kept(contours), k) + j) + 3 <= |Points(contours, axis, pos)| &&
      var at := 3 * (Offset(Kept(contours), k) + j);
      Points(contours, axis, pos)[at..at + 3] == Project(contours[|contours| - 1][j], axis, pos)
  {
    var init := contours[..|contours| - 1];
    var c := contours[|contours| - 1];
    var kept, keptInit := Kept(contours), Kept(init);
    var tail := ProjectAll(c, axis, pos);
    assert Points(contours, axis, pos) == Points(init, axis, pos) + tail;
    assert kept == keptInit + [c];
    var k := |kept| - 1;
    assert kept[..k] == keptInit;
    PointsLength(init, axis, pos);
    ProjectAllAt(c, axis, pos, j);
    var at := 3 * (Offset(kept, k) + j);
    SliceOfConcat(Points(init, axis, pos), tail, at);
  }
}
