/**
 * How the scroll view's tap gestures choose a new zoom scale: a double tap
 * zooms in by the zoom step towards the tapped point (or resets to the
 * minimum once at the maximum), a two-finger tap zooms out by the zoom
 * step (or jumps to the maximum from the minimum).
 */
module ZoomPolicy {
  import opened Geometry

  /** Factor by which one tap zooms in or out. */
  const ZoomStep: real := 2.0

  /**
   * What a gesture asks of the scroll view: set the scale directly, or zoom
   * so that `rect` (in content coordinates) fills the viewport, which is
   * the scale `scale`.
   */
  datatype ZoomRequest = SetScale(scale: real) | ZoomToRect(scale: real, rect: Rect)

  /** The scale a double tap moves to. */
  function DoubleTapTarget(zoomScale: real, b: ZoomBounds): (t: real)
    ensures zoomScale >= b.maxScale ==> t == b.minScale
    ensures 0.0 < zoomScale < b.maxScale ==>
              zoomScale < t <= b.maxScale && t <= zoomScale * ZoomStep
              && (t == zoomScale * ZoomStep || t == b.maxScale)
    ensures 0.0 <= b.minScale <= zoomScale <= b.maxScale ==> b.minScale <= t <= b.maxScale
  {
    if zoomScale >= b.maxScale then b.minScale
    else Min(zoomScale * ZoomStep, b.maxScale)
  }

  /**
   * The request a double tap at `tap` (content coordinates) makes: a plain
   * reset at or above the maximum, otherwise a zoom to the viewport-sized
   * rectangle at the target scale centred on the tap.
   */
  function DoubleTapRequest(zoomScale: real, b: ZoomBounds, viewport: Size, tap: Point): (req: ZoomRequest)
    requires zoomScale > 0.0
    ensures req.scale == DoubleTapTarget(zoomScale, b)
    ensures req.SetScale? <==> zoomScale >= b.maxScale
    ensures req.ZoomToRect? ==>
              req.rect.origin.x + req.rect.size.width / 2.0 == tap.x
              && req.rect.origin.y + req.rect.size.height / 2.0 == tap.y
              && req.rect.size.width * req.scale == viewport.width
              && req.rect.size.height * req.scale == viewport.height
  {
    if zoomScale >= b.maxScale then SetScale(b.minScale)
    else
      var newScale := DoubleTapTarget(zoomScale, b);
      ZoomToRect(newScale, RectAround(tap, viewport, newScale))
  }

  /** At or above the maximum every double tap resets to the minimum, wherever it lands. */
  lemma DoubleTapAtMaxResets(z1: real, z2: real, b: ZoomBounds, v1: Size, v2: Size, tap1: Point, tap2: Point)
    requires 0.0 < b.maxScale <= z1 && b.maxScale <= z2
    ensures DoubleTapRequest(z1, b, v1, tap1) == DoubleTapRequest(z2, b, v2, tap2) == SetScale(b.minScale)
  {
  }

  /** The scale a two-finger tap moves to. */
  function TwoFingerTapTarget(zoomScale: real, b: ZoomBounds): (t: real)
    ensures zoomScale == b.minScale ==> t == b.maxScale
    ensures zoomScale != b.minScale ==>
              t >= b.minScale && t >= zoomScale / ZoomStep
              && (t == b.minScale || t == zoomScale / ZoomStep)
    ensures 0.0 < b.minScale < zoomScale ==> t < zoomScale
    ensures 0.0 <= b.minScale <= zoomScale <= b.maxScale ==> b.minScale <= t <= b.maxScale
  {
    if zoomScale == b.minScale then b.maxScale
    else
      var nextZoomScale := zoomScale / ZoomStep;
      if nextZoomScale < b.minScale then b.minScale else nextZoomScale
  }

  /** Two two-finger taps from the minimum go to the maximum and then halve it, floored at the minimum. */
  lemma TwoFingerTapToggle(b: ZoomBounds)
    requires b.minScale < b.maxScale
    ensures TwoFingerTapTarget(TwoFingerTapTarget(b.minScale, b), b) == Max(b.maxScale / ZoomStep, b.minScale)
  {
  }

  /** `zoomScale` multiplied k times by the zoom step. */
  function ZoomedIn(zoomScale: real, k: nat): real
    decreases k
  {
    if k == 0 then zoomScale else ZoomedIn(zoomScale, k - 1) * ZoomStep
  }

  /** `zoomScale` divided k times by the zoom step. */
  function ZoomedOut(zoomScale: real, k: nat): real
    decreases k
  {
    if k == 0 then zoomScale else ZoomedOut(zoomScale, k - 1) / ZoomStep
  }

  /** The scale after k double taps starting from `zoomScale`. */
  function ScaleAfterDoubleTaps(zoomScale: real, b: ZoomBounds, k: nat): real
    decreases k
  {
    if k == 0 then zoomScale else ScaleAfterDoubleTaps(DoubleTapTarget(zoomScale, b), b, k - 1)
  }

  /** The scale after k two-finger taps starting from `zoomScale`. */
  function ScaleAfterTwoFingerTaps(zoomScale: real, b: ZoomBounds, k: nat): real
    decreases k
  {
    if k == 0 then zoomScale else ScaleAfterTwoFingerTaps(TwoFingerTapTarget(zoomScale, b), b, k - 1)
  }

  lemma {:induction false} ZoomedInShift(zoomScale: real, k: nat)
    ensures ZoomedIn(zoomScale * ZoomStep, k) == ZoomedIn(zoomScale, k + 1)
    decreases k
  {
    if k > 0 { ZoomedInShift(zoomScale, k - 1); }
  }

  lemma {:induction false} ZoomedInGrows(zoomScale: real, k: nat)
    requires zoomScale > 0.0 && k > 0
    ensures ZoomedIn(zoomScale, k) >= zoomScale * ZoomStep
    decreases k
  {
    if k > 1 { ZoomedInGrows(zoomScale, k - 1); }
  }

  lemma {:induction false} ZoomedOutShift(zoomScale: real, k: nat)
    ensures ZoomedOut(zoomScale / ZoomStep, k) == ZoomedOut(zoomScale, k + 1)
    decreases k
  {
    if k > 0 { ZoomedOutShift(zoomScale, k - 1); }
  }

  lemma {:induction false} ZoomedOutShrinks(zoomScale: real, k: nat)
    requires zoomScale > 0.0 && k > 0
    ensures ZoomedOut(zoomScale, k) <= zoomScale / ZoomStep
    decreases k
  {
    if k > 1 { ZoomedOutShrinks(zoomScale, k - 1); }
  }

  /**
   * Successive double taps multiply the scale by the zoom step each time,
   * capped at the maximum, as long as every earlier tap left it below the
   * maximum.
   */
  lemma {:induction false} DoubleTapsClimb(zoomScale: real, b: ZoomBounds, k: nat)
    requires 0.0 < zoomScale && 0 < k
    requires ZoomedIn(zoomScale, k - 1) < b.maxScale
    ensures ScaleAfterDoubleTaps(zoomScale, b, k) == Min(ZoomedIn(zoomScale, k), b.maxScale)
    decreases k
  {
    if k > 1 {
      ZoomedInGrows(zoomScale, k - 1);
      ZoomedInShift(zoomScale, k - 2);
      ZoomedInShift(zoomScale, k - 1);
      DoubleTapsClimb(zoomScale * ZoomStep, b, k - 1);
    }
  }

  /**
   * Successive two-finger taps divide the scale by the zoom step each time,
   * floored at the minimum, as long as every earlier tap left it above the
   * minimum.
   */
  lemma {:induction false} TwoFingerTapsDescend(zoomScale: real, b: ZoomBounds, k: nat)
    requires 0.0 < b.minScale && 0.0 < zoomScale && 0 < k
    requires ZoomedOut(zoomScale, k - 1) > b.minScale
    ensures ScaleAfterTwoFingerTaps(zoomScale, b, k) == Max(ZoomedOut(zoomScale, k), b.minScale)
    decreases k
  {
    if k > 1 {
      ZoomedOutShrinks(zoomScale, k - 1);
      ZoomedOutShift(zoomScale, k - 2);
      ZoomedOutShift(zoomScale, k - 1);
      TwoFingerTapsDescend(zoomScale / ZoomStep, b, k - 1);
    }
  }
}
