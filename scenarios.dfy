/**
 * A client of ZoomState that replays a session on a 1000 x 500 image with
 * five zoom levels in a 300 x 300 viewport, using only the contracts of
 * the operations.
 */
module Scenarios {
  import opened Geometry
  import opened ZoomPolicy
  import opened ScrollView

  method WideImageSession() {
    var view := new ZoomState(Size(300.0, 300.0));
    view.SetDataSource(DataSource(Size(1000.0, 500.0), 5));
    assert view.minimumZoomScale == 0.3 && view.maximumZoomScale == 3.0;
    assert view.zoomScale == 0.3;
    assert view.contentOrigin == Point(0.0, 0.0);

    // The host reports the content size at the new scale; the image is centred vertically.
    view.SetContentSize(Size(300.0, 150.0));
    assert view.contentOrigin == Point(0.0, 75.0);

    // Zoom in towards the centre of the image: the viewport then shows 500 x 500 of it.
    var request := view.DoubleTap(Point(500.0, 250.0));
    assert request == ZoomToRect(0.6, Rect(Point(250.0, 0.0), Size(500.0, 500.0)));
    request := view.DoubleTap(Point(500.0, 250.0));
    assert view.zoomScale == 1.2;
    request := view.DoubleTap(Point(500.0, 250.0));
    assert view.zoomScale == 2.4;
    request := view.DoubleTap(Point(500.0, 250.0));
    assert view.zoomScale == 3.0;

    // At the maximum the next double tap resets, wherever it lands.
    request := view.DoubleTap(Point(10.0, 10.0));
    assert request == SetScale(0.3) && view.zoomScale == 0.3;

    // Two-finger taps toggle to the maximum and then zoom out a step.
    view.TwoFingerTap();
    assert view.zoomScale == 3.0;
    view.TwoFingerTap();
    assert view.zoomScale == 1.5;

    view.UpdateContentOffset(Point(0.5, 0.5));
    assert view.contentOffset == Point(1500.0, 750.0);

    // A narrower viewport lowers the minimum; the current scale is above it and stays.
    view.SetBounds(Size(150.0, 300.0));
    assert view.minimumZoomScale == 0.15 && view.zoomScale == 1.5;

    // A reported content size smaller than the viewport is centred.
    view.SetContentSize(Size(100.0, 200.0));
    assert view.contentOrigin == Point(25.0, 50.0);
  }
}
