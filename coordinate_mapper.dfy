/**
 * The scale-independent pan coordinates of the scroll view: a fraction of
 * the image (0 to 1 on each axis) maps to an absolute content offset in the
 * frame of the image drawn at its maximum zoom scale.
 */
module CoordinateMapper {
  import opened Wrappers
  import opened Geometry

  /**
   * The offset that fraction (1, 1) maps to: the image extent at the maximum
   * zoom scale, or the zero point when no image is attached.
   */
  function MaxContentOffset(imageSize: Option<Size>, maxScale: real): (p: Point)
    ensures imageSize.None? ==> p == Origin
    ensures imageSize.Some? ==>
              p.x == imageSize.value.width * maxScale && p.y == imageSize.value.height * maxScale
    ensures imageSize.Some? && PositiveSize(imageSize.value) && maxScale > 0.0 ==> p.x > 0.0 && p.y > 0.0
  {
    match imageSize
    case None => Origin
    case Some(size) => Point(size.width * maxScale, size.height * maxScale)
  }

  /**
   * The absolute offset for a fractional position: a fraction in [0, 1]
   * lands between zero and the maximum offset.
   */
  function OffsetForFraction(maxOffset: Point, fraction: Point): (p: Point)
    ensures 0.0 <= fraction.x <= 1.0 && maxOffset.x >= 0.0 ==> 0.0 <= p.x <= maxOffset.x
    ensures 0.0 <= fraction.y <= 1.0 && maxOffset.y >= 0.0 ==> 0.0 <= p.y <= maxOffset.y
  {
    Point(OffsetOnAxis(maxOffset.x, fraction.x), OffsetOnAxis(maxOffset.y, fraction.y))
  }

  /** One axis of OffsetForFraction. */
  function OffsetOnAxis(extent: real, fraction: real): (r: real)
    ensures 0.0 <= fraction <= 1.0 && extent >= 0.0 ==> 0.0 <= r <= extent
  {
    FractionWithinExtent(extent, fraction);
    extent * fraction
  }

  lemma FractionWithinExtent(extent: real, fraction: real)
    ensures 0.0 <= fraction <= 1.0 && extent >= 0.0 ==> 0.0 <= extent * fraction <= extent
  {
    if 0.0 <= fraction <= 1.0 && extent >= 0.0 {
      ScaleMonotone(extent, 0.0, fraction);
      ScaleMonotone(extent, fraction, 1.0);
    }
  }

  lemma ScaleMonotone(extent: real, f1: real, f2: real)
    requires extent >= 0.0 && f1 <= f2
    ensures extent * f1 <= extent * f2
  {
    assert extent * f2 - extent * f1 == extent * (f2 - f1);
  }

  /** The corners of the unit square map to the zero point and to the maximum offset. */
  lemma OffsetForFractionCorners(maxOffset: Point)
    ensures OffsetForFraction(maxOffset, Origin) == Origin
    ensures OffsetForFraction(maxOffset, Point(1.0, 1.0)) == maxOffset
  {
  }
}
