/** The scaling engine: fit-to-box scale factors and the transforms between
    the template's native pixel space ("original") and a display surface.
    Numbers are reals, so the round trips hold exactly here; the browser's
    doubles only approximate them. */
module Scaling {
  import opened Common

  /** The record `calculateScaling` returns. */
  datatype ScalingInfo = ScalingInfo(
    scale: real,
    scaledWidth: real,
    scaledHeight: real,
    originalWidth: real,
    originalHeight: real)

  /** A rectangle `{x, y, width, height}`. */
  datatype Rect = Rect(x: real, y: real, width: real, height: real)

  /** Fit `original` inside `target` keeping the aspect ratio; the scale may
      exceed 1 (the box enlarges small templates). */
  function CalculateScaling(originalWidth: real, originalHeight: real, targetWidth: real, targetHeight: real): (r: ScalingInfo)
    requires originalWidth != 0.0 && originalHeight != 0.0
    ensures r.scale == Min(targetWidth / originalWidth, targetHeight / originalHeight)
    ensures r.originalWidth == originalWidth && r.originalHeight == originalHeight
    ensures r.scaledWidth == originalWidth * r.scale && r.scaledHeight == originalHeight * r.scale
  {
    var scale := Min(targetWidth / originalWidth, targetHeight / originalHeight);
    ScalingInfo(scale, originalWidth * scale, originalHeight * scale, originalWidth, originalHeight)
  }

  /** For a positive template and box, the scaled template lies inside the box
      and touches it on at least one side. */
  lemma FitsAndTouches(ow: real, oh: real, tw: real, th: real)
    requires ow > 0.0 && oh > 0.0 && tw > 0.0 && th > 0.0
    ensures CalculateScaling(ow, oh, tw, th).scaledWidth <= tw
    ensures CalculateScaling(ow, oh, tw, th).scaledHeight <= th
    ensures CalculateScaling(ow, oh, tw, th).scaledWidth == tw || CalculateScaling(ow, oh, tw, th).scaledHeight == th
  {
    var s := CalculateScaling(ow, oh, tw, th).scale;
    if tw / ow <= th / oh {
      assert s == tw / ow;
      assert ow * s == tw;
      MulMonotone(oh, s, th / oh);
      assert oh * (th / oh) == th;
    } else {
      assert s == th / oh;
      assert oh * s == th;
      MulMonotone(ow, s, tw / ow);
      assert ow * (tw / ow) == tw;
    }
  }

  lemma MulMonotone(a: real, b: real, c: real)
    requires a > 0.0 && b <= c
    ensures a * b <= a * c
  {
  }

  /** The scaled template keeps the original's aspect ratio. */
  lemma AspectPreserved(ow: real, oh: real, tw: real, th: real)
    requires ow > 0.0 && oh > 0.0 && tw > 0.0 && th > 0.0
    ensures CalculateScaling(ow, oh, tw, th).scaledHeight > 0.0
    ensures CalculateScaling(ow, oh, tw, th).scaledWidth / CalculateScaling(ow, oh, tw, th).scaledHeight == ow / oh
  {
    var r := CalculateScaling(ow, oh, tw, th);
    assert r.scale > 0.0;
    PositiveProduct(oh, r.scale);
    CancelCommonFactor(ow, oh, r.scale);
  }

  lemma PositiveProduct(a: real, b: real)
    requires a > 0.0 && b > 0.0
    ensures a * b > 0.0
  {
  }

  lemma CancelCommonFactor(a: real, b: real, s: real)
    requires b > 0.0 && s > 0.0
    ensures b * s != 0.0
    ensures (a * s) / (b * s) == a / b
  {
    PositiveProduct(b, s);
    assert (a / b) * (b * s) == a * s;
  }

  /** `scaleCoordinates`: original space to display space. */
  function ScaleCoordinates(x: real, y: real, width: real, height: real, scale: real): (r: Rect)
    ensures r.x == x * scale && r.y == y * scale
    ensures r.width == width * scale && r.height == height * scale
  {
    Rect(x * scale, y * scale, width * scale, height * scale)
  }

  /** `unscaleCoordinates`: display space back to original space. */
  function UnscaleCoordinates(x: real, y: real, width: real, height: real, scale: real): (r: Rect)
    requires scale != 0.0
    ensures r.x * scale == x && r.y * scale == y
    ensures r.width * scale == width && r.height * scale == height
  {
    Rect(x / scale, y / scale, width / scale, height / scale)
  }

  /** Unscaling undoes scaling for every non-zero scale. */
  lemma UnscaleScaleRoundTrip(x: real, y: real, width: real, height: real, scale: real)
    requires scale != 0.0
    ensures var d := ScaleCoordinates(x, y, width, height, scale);
            UnscaleCoordinates(d.x, d.y, d.width, d.height, scale) == Rect(x, y, width, height)
  {
  }

  /** Scaling undoes unscaling for every non-zero scale. */
  lemma ScaleUnscaleRoundTrip(x: real, y: real, width: real, height: real, scale: real)
    requires scale != 0.0
    ensures var o := UnscaleCoordinates(x, y, width, height, scale);
            ScaleCoordinates(o.x, o.y, o.width, o.height, scale) == Rect(x, y, width, height)
  {
  }

  /** Scale 1 leaves a rectangle where it is. */
  lemma ScaleByOneIsIdentity(x: real, y: real, width: real, height: real)
    ensures ScaleCoordinates(x, y, width, height, 1.0) == Rect(x, y, width, height)
  {
  }

  /** Scaling is linear: relative positions survive it. */
  lemma ScaleKeepsRelativePosition(x: real, y: real, width: real, height: real, ow: real, oh: real, scale: real)
    requires ow > 0.0 && oh > 0.0 && scale > 0.0
    ensures var d := ScaleCoordinates(x, y, width, height, scale);
            var box := ScaleCoordinates(0.0, 0.0, ow, oh, scale);
            box.width > 0.0 && box.height > 0.0 &&
            d.x / box.width == x / ow && d.y / box.height == y / oh
  {
    PositiveProduct(ow, scale);
    PositiveProduct(oh, scale);
    CancelCommonFactor(x, ow, scale);
    CancelCommonFactor(y, oh, scale);
  }

  const ExportDefaultWidth: real := 800.0
  const ExportDefaultHeight: real := 600.0

  /** `getExportScaling`: `calculateScaling` with the target box given by the
      caller, `None` standing for an omitted argument. */
  function GetExportScaling(originalWidth: real, originalHeight: real, targetWidth: Option<real>, targetHeight: Option<real>): (r: ScalingInfo)
    requires originalWidth != 0.0 && originalHeight != 0.0
    ensures targetWidth.None? && targetHeight.None? ==>
      r == CalculateScaling(originalWidth, originalHeight, 800.0, 600.0)
    ensures targetWidth.Some? && targetHeight.Some? ==>
      r == CalculateScaling(originalWidth, originalHeight, targetWidth.value, targetHeight.value)
    ensures targetWidth.Some? && targetHeight.None? ==>
      r == CalculateScaling(originalWidth, originalHeight, targetWidth.value, 600.0)
    ensures targetWidth.None? && targetHeight.Some? ==>
      r == CalculateScaling(originalWidth, originalHeight, 800.0, targetHeight.value)
  {
    var tw := if targetWidth.Some? then targetWidth.value else ExportDefaultWidth;
    var th := if targetHeight.Some? then targetHeight.value else ExportDefaultHeight;
    CalculateScaling(originalWidth, originalHeight, tw, th)
  }
}
