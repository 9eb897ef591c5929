/**
 * Fitting a slice view's camera to an image: which image axes span the
 * screen for a viewing axis and an up axis, and the parallel scale that
 * makes the image fit the view.
 */
module Camera {
  import opened Wrappers
  import Strings

  /** An image axis index. */
  type Axis = a: nat | a < 3

  /** `eyeFrameDimIndices`: the image axes along the screen's width and height, or the error for equal axes. */
  function EyeFrameDimIndices(lookAxis: Axis, eyeUpAxis: Axis): (r: Result<(Axis, Axis)>)
    ensures r.Ok? <==> lookAxis != eyeUpAxis
    ensures r.Ok? ==> r.value.1 == eyeUpAxis
    ensures r.Ok? ==> r.value.0 == 3 - lookAxis - eyeUpAxis && r.value.0 != lookAxis && r.value.0 != eyeUpAxis
    ensures r.Err? ==> r.message == "Invalid lookAxis and eyeUpAxis: " + Strings.NatToDecimal(lookAxis) + ", " + Strings.NatToDecimal(eyeUpAxis)
  {
    if lookAxis == 0 && eyeUpAxis == 1 then Ok((2, 1))
    else if lookAxis == 0 && eyeUpAxis == 2 then Ok((1, 2))
    else if lookAxis == 1 && eyeUpAxis == 0 then Ok((2, 0))
    else if lookAxis == 1 && eyeUpAxis == 2 then Ok((0, 2))
    else if lookAxis == 2 && eyeUpAxis == 0 then Ok((1, 0))
    else if lookAxis == 2 && eyeUpAxis == 1 then Ok((0, 1))
    else Err("Invalid lookAxis and eyeUpAxis: " + Strings.NatToDecimal(lookAxis) + ", " + Strings.NatToDecimal(eyeUpAxis))
  }

  /** The three axes of the eye frame are a permutation of the image axes. */
  lemma EyeFramePermutes(lookAxis: Axis, eyeUpAxis: Axis)
    requires lookAxis != eyeUpAxis
    ensures var (w, h) := EyeFrameDimIndices(lookAxis, eyeUpAxis).value;
      {lookAxis, w, h} == {0, 1, 2}
  {
  }

  /**
   * `computeParallelScale`: half the visible world height. The image fits
   * the view in both directions, touching its edges in at least one.
   */
  function ComputeParallelScale(lookAxis: Axis, viewUpAxis: Axis, dimensions: seq<real>, viewSize: (real, real)): (r: Result<real>)
    requires |dimensions| == 3 && forall i :: 0 <= i < 3 ==> dimensions[i] > 0.0
    requires viewSize.0 > 0.0 && viewSize.1 > 0.0
    ensures r.Err? <==> lookAxis == viewUpAxis
    ensures r.Ok? ==>
      var (w, h) := EyeFrameDimIndices(lookAxis, viewUpAxis).value;
      var viewAspect := viewSize.0 / viewSize.1;
      2.0 * r.value >= dimensions[h] && 2.0 * r.value * viewAspect >= dimensions[w] &&
      (2.0 * r.value == dimensions[h] || 2.0 * r.value * viewAspect == dimensions[w])
  {
    match EyeFrameDimIndices(lookAxis, viewUpAxis)
      case Err(m) => Err(m)
      case Ok((widthIndex, heightIndex)) =>
        var width, height := dimensions[widthIndex], dimensions[heightIndex];
        var viewAspect := viewSize.0 / viewSize.1;
        FitsView(width, height, viewAspect);
        Ok(FitScale(width, height, viewAspect))
  }

  /** The scale for an image extent of `width` by `height` in a view of aspect `viewAspect`. */
  function FitScale(width: real, height: real, viewAspect: real): real
    requires height != 0.0 && viewAspect != 0.0
  {
    var dimAspect := width / height;
    if dimAspect > viewAspect then width / 2.0 / viewAspect else height / 2.0
  }

  /** The arithmetic behind the fit: the scale touches the wider of the two aspects and covers the other. */
  lemma FitsView(width: real, height: real, viewAspect: real)
    requires width > 0.0 && height > 0.0 && viewAspect > 0.0
    ensures var scale := FitScale(width, height, viewAspect);
      2.0 * scale >= height && 2.0 * scale * viewAspect >= width &&
      (2.0 * scale == height || 2.0 * scale * viewAspect == width)
  {
    if width / height > viewAspect {
      var scale := width / 2.0 / viewAspect;
      assert 2.0 * scale * viewAspect == width;
      assert width > viewAspect * height;
      assert 2.0 * scale == width / viewAspect;
    } else {
      assert width <= viewAspect * height;
    }
  }

  /** The physical extent in `resizeToFitImage`: each dimension times its spacing. */
  function DimsWithSpacing(dimensions: seq<real>, spacing: seq<real>): (r: seq<real>)
    requires |dimensions| == 3 && |spacing| == 3
    ensures |r| == 3 && forall i :: 0 <= i < 3 ==> r[i] == dimensions[i] * spacing[i]
  {
    [dimensions[0] * spacing[0], dimensions[1] * spacing[1], dimensions[2] * spacing[2]]
  }

  /** Positive dimensions with positive spacings make a positive extent. */
  lemma PositiveExtent(dimensions: seq<real>, spacing: seq<real>)
    requires |dimensions| == 3 && |spacing| == 3
    requires forall i :: 0 <= i < 3 ==> dimensions[i] > 0.0 && spacing[i] > 0.0
    ensures forall i :: 0 <= i < 3 ==> DimsWithSpacing(dimensions, spacing)[i] > 0.0
  {
    forall i | 0 <= i < 3
      ensures DimsWithSpacing(dimensions, spacing)[i] > 0.0
    {
      assert dimensions[i] * spacing[i] > 0.0;
    }
  }

  /** Scaling both extents by a factor scales the fitted scale by the same factor. */
  lemma FitScaleHomogeneous(width: real, height: real, viewAspect: real, c: real)
    requires width > 0.0 && height > 0.0 && viewAspect > 0.0 && c > 0.0
    ensures c * height > 0.0
    ensures FitScale(c * width, c * height, viewAspect) == c * FitScale(width, height, viewAspect)
  {
    assert c * height > 0.0;
    assert (c * width) / (c * height) == width / height;
    assert (c * width) / 2.0 / viewAspect == c * (width / 2.0 / viewAspect);
  }

  /** Scaling the image's extent by a factor scales the fitted parallel scale by the same factor. */
  lemma ScaleIsHomogeneous(lookAxis: Axis, viewUpAxis: Axis, dimensions: seq<real>, scaled: seq<real>, viewSize: (real, real), c: real)
    requires |dimensions| == 3 && forall i :: 0 <= i < 3 ==> dimensions[i] > 0.0
    requires |scaled| == 3 && forall i :: 0 <= i < 3 ==> scaled[i] == c * dimensions[i] && scaled[i] > 0.0
    requires viewSize.0 > 0.0 && viewSize.1 > 0.0 && c > 0.0
    requires lookAxis != viewUpAxis
    ensures ComputeParallelScale(lookAxis, viewUpAxis, scaled, viewSize).value ==
      c * ComputeParallelScale(lookAxis, viewUpAxis, dimensions, viewSize).value
  {
    var (w, h) := EyeFrameDimIndices(lookAxis, viewUpAxis).value;
    var viewAspect := viewSize.0 / viewSize.1;
    ScaleOfAxes(lookAxis, viewUpAxis, dimensions, viewSize);
    ScaleOfAxes(lookAxis, viewUpAxis, scaled, viewSize);
    FitScaleOfScaled(scaled[w], scaled[h], dimensions[w], dimensions[h], viewAspect, c);
  }

  /** `FitScaleHomogeneous` for extents already scaled by `c`. */
  lemma FitScaleOfScaled(scaledWidth: real, scaledHeight: real, width: real, height: real, viewAspect: real, c: real)
    requires width > 0.0 && height > 0.0 && viewAspect > 0.0 && c > 0.0
    requires scaledWidth == c * width && scaledHeight == c * height
    ensures scaledHeight != 0.0
    ensures FitScale(scaledWidth, scaledHeight, viewAspect) == c * FitScale(width, height, viewAspect)
  {
    FitScaleHomogeneous(width, height, viewAspect, c);
  }

  /** The parallel scale is the fit of the two screen axes' extents. */
  lemma ScaleOfAxes(lookAxis: Axis, viewUpAxis: Axis, dimensions: seq<real>, viewSize: (real, real))
    requires |dimensions| == 3 && forall i :: 0 <= i < 3 ==> dimensions[i] > 0.0
    requires viewSize.0 > 0.0 && viewSize.1 > 0.0
    requires lookAxis != viewUpAxis
    ensures var (w, h) := EyeFrameDimIndices(lookAxis, viewUpAxis).value;
      ComputeParallelScale(lookAxis, viewUpAxis, dimensions, viewSize) == Ok(FitScale(dimensions[w], dimensions[h], viewSize.0 / viewSize.1))
  {
  }
}
