# Tiled-image scroll view: pan/zoom controller

A Dafny model of the pan/zoom controller inside `TiledImageScrollView`, the
scroll view of SCTiledImage that shows a very large tiled image through a
fixed-size viewport. The model covers:

- the zoom range derived from the viewport size, the image size and the
  number of zoom levels of the tile source (`Geometry.ZoomBoundsFor`);
- the gesture rules: a double tap zooms in by the zoom step (2) towards the
  tapped point or resets to the minimum at the maximum; a two-finger tap
  zooms out by the zoom step or jumps from the minimum to the maximum
  (`ZoomPolicy`);
- the centring of content smaller than the viewport and the rectangle a
  zoom targets around a point (`Geometry`);
- the scale-independent pan coordinates, fraction of the image to absolute
  offset at the maximum zoom scale (`CoordinateMapper`);
- the mutable view state and its operations, as the class
  `ScrollView.ZoomState`: attaching a data source, the bounds and
  content-size observers, the two taps and the pan by fraction.

CGFloat values are exact reals. The key-value observers of `bounds` and
`contentSize` are direct calls: `SetBounds` and `SetContentSize` change the
value and then run `SizeDidChange`, as the observer would. Inside
`SetDataSource` the content-size assignment runs the observer at once. The
viewport size was recorded just before, so that run only re-centres.

The host scroll view's `setZoomScale` is an assignment of the scale.
`zoom(to:animated:)` is returned as a `ZoomToRect(scale, rect)` request, and
the scale is set to the one the rectangle implies. `Geometry.RectAround`
proves that this is exactly the target scale: the rectangle is the viewport
size divided by it.

The class invariant `Valid()` states two things. First, the scale always
lies in `[minimumZoomScale, maximumZoomScale]`. Second, once an image is
attached, the range is the one `ZoomBoundsFor` derives for the current
viewport, and content smaller than the viewport is centred in it. Every operation keeps it. So the host's own clamping of the scale
is never needed. The maximum depends only on the number of zoom levels, so
a resize can only raise the scale (to a new minimum).

`Scenarios.WideImageSession` replays a session on a 1000 x 500 image with
five zoom levels in a 300 x 300 viewport, using only the operations'
contracts. The minimum is 0.3 and the maximum 3.0. The host then reports
the content size at that scale, 300 x 150, and the image is centred at
(0, 75). Double taps at
(500, 250) go 0.6, 1.2, 2.4, 3.0, and the first one targets the 500 x 500
rectangle at (250, 0). Another double tap resets to 0.3. Two-finger taps
then go to 3.0 and 1.5. The fraction (0.5, 0.5) gives the offset
(1500, 750).

Three facts about the code shape the model:

- The code has no error path for a zero or negative size. It divides by
  the image size without a guard, so the model requires positive image and
  viewport sizes.
- `updateContentOffset` uses the fraction as given. It does not clamp it
  to [0, 1].
- A double tap at the maximum calls `setZoomScale(minimumZoomScale)`. It
  builds no rectangle.

## Model

| member | source | states |
|---|---|---|
| Geometry.MaxScaleFor | SCTiledImage/TiledImageScrollView.swift:92 | the maximum scale is 0.6 per zoom level with at least three levels counted, so it is at least 1.8 and exactly 1.8 for three levels or fewer |
| Geometry.ZoomBoundsFor | SCTiledImage/TiledImageScrollView.swift:86-99 | 0 < minimum <= maximum; the maximum is `MaxScaleFor(zoomLevels)`, independent of viewport and image; the image fits the viewport at the minimum; the minimum is the largest scale up to the maximum at which it fits, and equals the maximum unless the image exactly fills the viewport on one axis |
| Geometry.CenteringOffset | SCTiledImage/TiledImageScrollView.swift:119-120 | the content origin is non-negative on each axis; it is positive exactly when the content is narrower (shorter) than the viewport, and then the margins on both sides are equal |
| Geometry.RectAround | SCTiledImage/TiledImageScrollView.swift:135-140 | the rectangle times the scale is the viewport size, and its centre is exactly the given point |
| CoordinateMapper.MaxContentOffset | SCTiledImage/TiledImageScrollView.swift:30-33 | zero without an image; otherwise the image size at the maximum zoom scale, positive on both axes for a positive image and scale |
| CoordinateMapper.OffsetForFraction | SCTiledImage/TiledImageScrollView.swift:154-156 | a fraction in [0, 1] gives an offset between zero and the maximum offset on that axis |
| CoordinateMapper.OffsetForFractionCorners | SCTiledImage/TiledImageScrollView.swift:154-156 | fraction (0, 0) gives the zero offset and (1, 1) gives `maxContentOffset` |
| ZoomPolicy.DoubleTapTarget | SCTiledImage/TiledImageScrollView.swift:125-129 | at or above the maximum the target is the minimum; below it the target is strictly larger than the scale, at most the maximum and at most twice the scale, and is one of the two; a scale in range stays in range |
| ZoomPolicy.DoubleTapRequest | SCTiledImage/TiledImageScrollView.swift:124-133 | a plain scale request exactly when at or above the maximum; otherwise a rectangle request at the target scale, centred on the tap, whose size times the scale is the viewport size |
| ZoomPolicy.DoubleTapAtMaxResets | SCTiledImage/TiledImageScrollView.swift:125-126 | every double tap from at or above the maximum gives the same request, reset to the minimum, whatever the tap point, viewport or scale |
| ZoomPolicy.TwoFingerTapTarget | SCTiledImage/TiledImageScrollView.swift:142-150 | from exactly the minimum the target is the maximum; otherwise it is the larger of half the scale and the minimum, strictly below a scale above a positive minimum; a scale in range stays in range |
| ZoomPolicy.TwoFingerTapToggle | SCTiledImage/TiledImageScrollView.swift:145-149 | two two-finger taps from the minimum give the larger of half the maximum and the minimum |
| ZoomPolicy.DoubleTapsClimb | SCTiledImage/TiledImageScrollView.swift:124-133 | k successive double taps multiply the scale by the zoom step k times, capped at the maximum, while the earlier taps stayed below the maximum |
| ZoomPolicy.TwoFingerTapsDescend | SCTiledImage/TiledImageScrollView.swift:142-152 | k successive two-finger taps divide the scale by the zoom step k times, floored at the minimum, while the earlier taps stayed above the minimum |
| ScrollView.ZoomState.constructor | SCTiledImage/TiledImageScrollView.swift:19-25 | a new view has no data source, a zero recorded viewport size, empty content and the host's unit scale and range, and is valid |
| ScrollView.ZoomState.SetDataSource | SCTiledImage/TiledImageScrollView.swift:65-78 | records the viewport size, sets the content size to the image size and centres it, sets the range to `ZoomBoundsFor` of viewport and image, sets the scale to the minimum, and keeps the invariant |
| ScrollView.ZoomState.SetMaxMinZoomScalesForCurrentBounds | SCTiledImage/TiledImageScrollView.swift:80-104 | without a data source nothing changes; with one the range becomes `ZoomBoundsFor` of viewport and image, and the scale is raised to the new minimum if below it and otherwise unchanged |
| ScrollView.ZoomState.Recenter | SCTiledImage/TiledImageScrollView.swift:119-121 | with a content view the content origin becomes the centring offset; without one it is unchanged |
| ScrollView.ZoomState.SizeDidChange | SCTiledImage/TiledImageScrollView.swift:114-122 | the range and scale change only if the viewport size differs from the recorded one; afterwards the recorded size is the current one, the range matches it, the scale is raised only to the new minimum, the content is re-centred, and the invariant holds |
| ScrollView.ZoomState.SetBounds | SCTiledImage/TiledImageScrollView.swift:106-108 | after a resize the range is `ZoomBoundsFor` of the new viewport, the scale is raised only to the new minimum, the content is centred in the new viewport, and the invariant holds |
| ScrollView.ZoomState.SetContentSize | SCTiledImage/TiledImageScrollView.swift:106-108 | a content-size change leaves the range and scale unchanged and re-centres the content |
| ScrollView.ZoomState.DoubleTap | SCTiledImage/TiledImageScrollView.swift:124-133 | returns `DoubleTapRequest` of the old scale and the tap, sets the scale to the request's scale, and keeps the scale in range |
| ScrollView.ZoomState.TwoFingerTap | SCTiledImage/TiledImageScrollView.swift:142-152 | sets the scale to `TwoFingerTapTarget` of the old scale, and keeps it in range |
| ScrollView.ZoomState.UpdateContentOffset | SCTiledImage/TiledImageScrollView.swift:154-156 | sets the content offset to `OffsetForFraction` of `maxContentOffset` and the fraction, and changes nothing else |

## Left out

- Gesture recognizer creation and registration (lines 50-59): host input plumbing. The taps are the methods `DoubleTap` and `TwoFingerTap`, and the tap location is a parameter.
- Key-value observer registration and removal (lines 45-48, 61-62): replaced by direct calls to `SizeDidChange` from `SetBounds` and `SetContentSize`.
- Creating, attaching and removing `TiledImageView`/`TiledImageContentView` (lines 67-72): view hierarchy and types outside this model. The content view exists exactly when a data source is attached.
- `setNeedsLayout`/`layoutIfNeeded` (lines 84-85): host layout passes, assumed not to change the bounds.
- `visibleRect` (lines 27-29): it depends on the host's coordinate conversion between views.
- The host's `setZoomScale` and `zoom(to:animated:)`: clamping, animation, and the content offset and content size they adjust. The scale is assigned. The host's rescaling of `contentSize` after a zoom reaches the model only when reported through `SetContentSize`.
- The delegate forwarding of scroll and zoom events (lines 159-176), and the weak `dataSource`/delegate references: callbacks with no logic, and a data source that is never released.
- Floating-point rounding: values are exact reals, and the equality test of the two-finger tap (line 145) is exact real equality.
- A zero-sized viewport, before the first layout, is not modelled: its minimum scale would be zero, and the double-tap rectangle would divide by it.
