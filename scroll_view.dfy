/**
 * The pan/zoom state of the tiled-image scroll view and the operations
 * that change it: attaching a data source, resizing the viewport, the
 * content-size and bounds observers, the two tap gestures and the
 * programmatic pan by fraction.
 *
 * The host scroll view's own behaviour is reduced to its stored values:
 * setting the zoom scale assigns it, and a zoom to a rectangle assigns the
 * scale the rectangle implies (the rectangle is returned as a request).
 */
module ScrollView {
  import opened Wrappers
  import opened Geometry
  import opened CoordinateMapper
  import opened ZoomPolicy

  /** What the view reads from its data source: the image's size and its number of zoom levels. */
  datatype DataSource = DataSource(imageSize: Size, zoomLevels: int)

  class ZoomState {
    /** The viewport size (the scroll view's bounds size). */
    var bounds: Size
    /** The viewport size seen when the zoom range was last derived. */
    var currentBounds: Size
    var contentSize: Size
    /** Origin of the content view inside the scroll view. */
    var contentOrigin: Point
    var contentOffset: Point
    var zoomScale: real
    var minimumZoomScale: real
    var maximumZoomScale: real
    /** The attached data source; the content view exists exactly when it is present. */
    var dataSource: Option<DataSource>

    function ZoomRange(): ZoomBounds
      reads this
    {
      ZoomBounds(minimumZoomScale, maximumZoomScale)
    }

    function ImageSize(): Option<Size>
      reads this
    {
      if dataSource.Some? then Some(dataSource.value.imageSize) else None
    }

    /**
     * The state between notifications: the scale lies in the zoom range,
     * and once an image is attached the range is the one derived for the
     * viewport size last seen.
     */
    ghost predicate Consistent()
      reads this
    {
      && PositiveSize(bounds)
      && 0.0 < minimumZoomScale <= zoomScale <= maximumZoomScale
      && (dataSource.Some? ==>
            && PositiveSize(dataSource.value.imageSize)
            && PositiveSize(currentBounds)
            && ZoomRange() == ZoomBoundsFor(currentBounds, dataSource.value.imageSize, dataSource.value.zoomLevels))
    }

    /**
     * The state after every public operation: also, the last viewport size
     * seen is the current one, and the content is centred in the viewport.
     */
    ghost predicate Valid()
      reads this
    {
      && Consistent()
      && (dataSource.Some? ==> currentBounds == bounds && contentOrigin == CenteringOffset(bounds, contentSize))
    }

    /** A fresh scroll view with the host's defaults: unit scale and range, empty content, no data source. */
    constructor (frame: Size)
      requires PositiveSize(frame)
      ensures Valid()
      ensures bounds == frame && currentBounds == Size(0.0, 0.0) && dataSource == None
      ensures zoomScale == minimumZoomScale == maximumZoomScale == 1.0
      ensures contentSize == Size(0.0, 0.0) && contentOffset == Origin && contentOrigin == Origin
    {
      bounds := frame;
      currentBounds := Size(0.0, 0.0);
      contentSize := Size(0.0, 0.0);
      contentOrigin := Origin;
      contentOffset := Origin;
      zoomScale, minimumZoomScale, maximumZoomScale := 1.0, 1.0, 1.0;
      dataSource := None;
    }

    /**
     * Attach a data source: record the viewport size, take the image size as
     * content size (which re-centres the content), derive the zoom range and
     * show the whole image at the minimum scale.
     */
    method SetDataSource(source: DataSource)
      requires Valid() && PositiveSize(source.imageSize)
      modifies this
      ensures Valid()
      ensures dataSource == Some(source) && bounds == old(bounds) && currentBounds == bounds
      ensures contentSize == source.imageSize
      ensures ZoomRange() == ZoomBoundsFor(bounds, source.imageSize, source.zoomLevels)
      ensures zoomScale == minimumZoomScale
      ensures contentOrigin == CenteringOffset(bounds, source.imageSize)
      ensures contentOffset == old(contentOffset)
    {
      dataSource := Some(source);
      currentBounds := bounds;
      contentSize := source.imageSize;
      // The content-size observer fires here; the viewport size was just recorded, so it only re-centres.
      Recenter();
      SetMaxMinZoomScalesForCurrentBounds();
      zoomScale := minimumZoomScale;
    }

    /**
     * Derive the zoom range for the current viewport and image, raising the
     * scale to the new minimum if it has fallen below it. Nothing changes
     * without a data source.
     */
    method SetMaxMinZoomScalesForCurrentBounds()
      requires PositiveSize(bounds) && 0.0 < zoomScale
      requires dataSource.Some? ==> PositiveSize(dataSource.value.imageSize)
      modifies this`zoomScale, this`minimumZoomScale, this`maximumZoomScale
      ensures dataSource.None? ==>
                zoomScale == old(zoomScale) && ZoomRange() == old(ZoomRange())
      ensures dataSource.Some? ==>
                && ZoomRange() == ZoomBoundsFor(bounds, dataSource.value.imageSize, dataSource.value.zoomLevels)
                && zoomScale == (if minimumZoomScale > old(zoomScale) then minimumZoomScale else old(zoomScale))
    {
      if dataSource.None? {
        return;
      }
      var imageSize := dataSource.value.imageSize;
      var xScale := bounds.width / imageSize.width;
      var yScale := bounds.height / imageSize.height;
      var minScale := Min(xScale, yScale);
      var maxScale := MaxScaleFor(dataSource.value.zoomLevels);
      if minScale > maxScale {
        minScale := maxScale;
      }
      maximumZoomScale := maxScale;
      minimumZoomScale := minScale;
      if minimumZoomScale > zoomScale {
        zoomScale := minimumZoomScale;
      }
    }

    /** Place the content view so that content smaller than the viewport is centred. */
    method Recenter()
      modifies this`contentOrigin
      ensures contentOrigin == if dataSource.Some? then CenteringOffset(bounds, contentSize) else old(contentOrigin)
    {
      if dataSource.Some? {
        contentOrigin := CenteringOffset(bounds, contentSize);
      }
    }

    /**
     * The bounds and content-size observer: derive the zoom range again only
     * if the viewport size differs from the one last seen, then re-centre.
     */
    method SizeDidChange()
      requires Consistent()
      modifies this`currentBounds, this`zoomScale, this`minimumZoomScale, this`maximumZoomScale, this`contentOrigin
      ensures Valid()
      ensures currentBounds == bounds
      ensures old(currentBounds) == bounds || dataSource.None? ==>
                zoomScale == old(zoomScale) && ZoomRange() == old(ZoomRange())
      ensures dataSource.Some? ==>
                && ZoomRange() == ZoomBoundsFor(bounds, dataSource.value.imageSize, dataSource.value.zoomLevels)
                && zoomScale == (if minimumZoomScale > old(zoomScale) then minimumZoomScale else old(zoomScale))
      ensures contentOrigin == if dataSource.Some? then CenteringOffset(bounds, contentSize) else old(contentOrigin)
    {
      if currentBounds != bounds {
        currentBounds := bounds;
        SetMaxMinZoomScalesForCurrentBounds();
      }
      Recenter();
    }

    /** The host resizes the viewport; the bounds observer runs. */
    method SetBounds(newSize: Size)
      requires Valid() && PositiveSize(newSize)
      modifies this
      ensures Valid()
      ensures bounds == newSize && currentBounds == newSize
      ensures dataSource == old(dataSource) && contentSize == old(contentSize) && contentOffset == old(contentOffset)
      ensures dataSource.None? ==> zoomScale == old(zoomScale) && ZoomRange() == old(ZoomRange())
      ensures dataSource.Some? ==>
                && ZoomRange() == ZoomBoundsFor(newSize, dataSource.value.imageSize, dataSource.value.zoomLevels)
                && zoomScale == (if minimumZoomScale > old(zoomScale) then minimumZoomScale else old(zoomScale))
      ensures contentOrigin == if dataSource.Some? then CenteringOffset(newSize, contentSize) else old(contentOrigin)
    {
      bounds := newSize;
      SizeDidChange();
    }

    /** The content size changes (for instance after a zoom); the content-size observer runs. */
    method SetContentSize(newSize: Size)
      requires Valid()
      modifies this
      ensures Valid()
      ensures contentSize == newSize && currentBounds == bounds
      ensures bounds == old(bounds) && dataSource == old(dataSource) && contentOffset == old(contentOffset)
      ensures zoomScale == old(zoomScale) && ZoomRange() == old(ZoomRange())
      ensures contentOrigin == if dataSource.Some? then CenteringOffset(bounds, newSize) else old(contentOrigin)
    {
      contentSize := newSize;
      SizeDidChange();
    }

    /**
     * Double tap at `tap` (content coordinates): reset to the minimum at or
     * above the maximum, otherwise zoom in one step towards the tap.
     */
    method DoubleTap(tap: Point) returns (request: ZoomRequest)
      requires Valid()
      modifies this`zoomScale
      ensures Valid()
      ensures request == DoubleTapRequest(old(zoomScale), ZoomRange(), bounds, tap)
      ensures zoomScale == request.scale
    {
      if zoomScale >= maximumZoomScale {
        request := SetScale(minimumZoomScale);
      } else {
        var newScale := Min(zoomScale * ZoomStep, maximumZoomScale);
        var maxZoomRect := RectAround(tap, bounds, newScale);
        request := ZoomToRect(newScale, maxZoomRect);
      }
      zoomScale := request.scale;
    }

    /** Two-finger tap: from the minimum jump to the maximum, otherwise zoom out one step. */
    method TwoFingerTap()
      requires Valid()
      modifies this`zoomScale
      ensures Valid()
      ensures zoomScale == TwoFingerTapTarget(old(zoomScale), ZoomRange())
    {
      var newZoomScale: real;
      if zoomScale == minimumZoomScale {
        newZoomScale := maximumZoomScale;
      } else {
        var nextZoomScale := zoomScale / ZoomStep;
        newZoomScale := if nextZoomScale < minimumZoomScale then minimumZoomScale else nextZoomScale;
      }
      zoomScale := newZoomScale;
    }

    /** Pan to a fractional position of the image, measured at the maximum zoom scale. */
    method UpdateContentOffset(fraction: Point)
      modifies this`contentOffset
      ensures contentOffset == OffsetForFraction(MaxContentOffset(ImageSize(), maximumZoomScale), fraction)
    {
      var maxOffset := MaxContentOffset(ImageSize(), maximumZoomScale);
      contentOffset := Point(maxOffset.x * fraction.x, maxOffset.y * fraction.y);
    }
  }
}
