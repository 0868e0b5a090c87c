/**
 * Pure geometry of the tiled-image scroll view: sizes and points in the
 * view's coordinate space, the legal zoom range for an image shown in a
 * viewport, the origin that centres undersized content, and the zoom
 * rectangle built around a tapped point.
 *
 * CGFloat values are modelled as exact reals.
 */
module Geometry {

  datatype Size = Size(width: real, height: real)
  datatype Point = Point(x: real, y: real)
  datatype Rect = Rect(origin: Point, size: Size)

  /** The inclusive range of zoom scales the scroll view allows. */
  datatype ZoomBounds = ZoomBounds(minScale: real, maxScale: real)

  const Origin: Point := Point(0.0, 0.0)

  function Min(a: real, b: real): real { if a <= b then a else b }
  function Max(a: real, b: real): real { if a >= b then a else b }

  predicate PositiveSize(s: Size) { s.width > 0.0 && s.height > 0.0 }

  /** `content` drawn at `scale` lies within `viewport` on both axes. */
  predicate Fits(content: Size, scale: real, viewport: Size) {
    content.width * scale <= viewport.width && content.height * scale <= viewport.height
  }

  /**
   * The zoom-in limit: 0.6 per zoom level of the tile source, counting at
   * least three levels. It depends on nothing but the number of levels.
   */
  function MaxScaleFor(zoomLevels: int): (r: real)
    ensures r >= 1.8
    ensures zoomLevels <= 3 ==> r == 1.8
    ensures zoomLevels >= 3 ==> r == 0.6 * zoomLevels as real
  {
    Max(zoomLevels as real, 3.0) * 0.6
  }

  /**
   * The zoom range for an image in a viewport: the minimum is the largest
   * scale at which the whole image is visible, capped at the maximum.
   */
  function ZoomBoundsFor(viewport: Size, image: Size, zoomLevels: int): (b: ZoomBounds)
    requires PositiveSize(viewport) && PositiveSize(image)
    ensures b.maxScale == MaxScaleFor(zoomLevels)
    ensures 0.0 < b.minScale <= b.maxScale
    ensures Fits(image, b.minScale, viewport)
    ensures forall s :: 0.0 < s <= b.maxScale && Fits(image, s, viewport) ==> s <= b.minScale
    ensures b.minScale == b.maxScale
         || b.minScale * image.width == viewport.width
         || b.minScale * image.height == viewport.height
  {
    var xScale := viewport.width / image.width;
    var yScale := viewport.height / image.height;
    var minScale := Min(xScale, yScale);
    var maxScale := MaxScaleFor(zoomLevels);
    ScaleBelowRatioFits(Min(minScale, maxScale), image.width, viewport.width);
    ScaleBelowRatioFits(Min(minScale, maxScale), image.height, viewport.height);
    ZoomBounds(if minScale > maxScale then maxScale else minScale, maxScale)
  }

  /** A non-negative scale no larger than `extent / length` keeps `length` within `extent`. */
  lemma ScaleBelowRatioFits(s: real, length: real, extent: real)
    requires s >= 0.0 && length > 0.0 && s <= extent / length
    ensures s * length <= extent
  {
    assert s * length <= (extent / length) * length;
  }

  /**
   * Origin of the content inside the viewport: half the spare room on an
   * axis where the content is smaller than the viewport, zero otherwise.
   */
  function CenteringOffset(viewport: Size, content: Size): (p: Point)
    ensures p.x >= 0.0 && p.y >= 0.0
    ensures p.x > 0.0 <==> content.width < viewport.width
    ensures p.y > 0.0 <==> content.height < viewport.height
    ensures content.width < viewport.width ==> p.x + content.width + p.x == viewport.width
    ensures content.height < viewport.height ==> p.y + content.height + p.y == viewport.height
  {
    Point(Max(-(content.width - viewport.width) / 2.0, 0.0),
          Max(-(content.height - viewport.height) / 2.0, 0.0))
  }

  /**
   * The rectangle that a viewport of size `viewport` shows at `scale`,
   * centred on `point`.
   */
  function RectAround(point: Point, viewport: Size, scale: real): (r: Rect)
    requires scale > 0.0
    ensures r.size.width * scale == viewport.width && r.size.height * scale == viewport.height
    ensures r.origin.x + r.size.width / 2.0 == point.x && r.origin.y + r.size.height / 2.0 == point.y
  {
    var scaled := Size(viewport.width / scale, viewport.height / scale);
    Rect(Point(point.x - scaled.width / 2.0, point.y - scaled.height / 2.0), scaled)
  }
}
