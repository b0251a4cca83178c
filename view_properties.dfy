/** What the view's operations promise, proved about the functions of ViewModel. */
module ViewProperties {
  import opened Wrappers
  import opened Num
  import opened Matrix
  import opened Geometry
  import opened Centering
  import opened Timing
  import opened ViewModel

  // ---- center ----

  /** A second center() right after the first changes nothing. */
  lemma CenterIdempotent(st: ViewState, vertical: bool, horizontal: bool)
    requires WellFormed(st)
    ensures Center(Center(st, vertical, horizontal), vertical, horizontal) == Center(st, vertical, horizontal)
  {
    var once := Center(st, vertical, horizontal);
    if st.bitmap.Some? {
      var b := st.bitmap.value;
      var d := CenterDelta(ImageViewMatrix(once), b, once.width, once.height, vertical, horizontal);
      assert d == (0.0, 0.0);
      assert PostTranslate(once.supp, 0.0, 0.0) == once.supp;
    }
  }

  /** Right after the base matrix is built and mSuppMatrix reset, center() posts a zero translation. */
  lemma BaseNeedsNoCentering(st: ViewState, b: Bitmap)
    requires st.bitmap == Some(b) && st.base == BaseMatrix(b, st.width, st.height) && st.supp == Identity
    ensures Center(st, true, true) == Publish(st)
  {
    PostConcatIdentity(st.base);
    BaseMatrixSettled(b, st.width, st.height);
  }

  // ---- zoomTo ----

  /**
   * zoomTo with a bitmap: the scale becomes min(scale, mMaxZoom), the base
   * matrix stays, mMatrix is base followed by supp, and the image is settled
   * on both axes (where the focus point goes is ZoomToAnchorsFocus).
   */
  lemma ZoomToReachesCappedScale(st: ViewState, scale: real, centerX: real, centerY: real)
    requires WellFormed(st) && st.bitmap.Some? && GetScale(st) != 0.0
    ensures var r := ZoomTo(st, scale, centerX, centerY);
            GetScale(r) == Min(scale, st.maxZoom) && r.matrix == PostConcat(r.base, r.supp) &&
            r.base == st.base && r.bitmap == st.bitmap &&
            Settled(r.matrix, st.bitmap.value, st.width, st.height, true, true)
  {
    ImageViewMatrixComposes(ZoomTo(st, scale, centerX, centerY));
  }

  /**
   * zoomTo scales the display matrix about (centerX, centerY) and then only
   * shifts it by the centering translation: an image point shown at the focus
   * ends up exactly that translation away from it, and stays at the focus when
   * the scaled image needs no centering.
   */
  lemma ZoomToAnchorsFocus(st: ViewState, scale: real, centerX: real, centerY: real, x: real, y: real)
    requires WellFormed(st) && st.bitmap.Some? && GetScale(st) != 0.0
    requires MapX(ImageViewMatrix(st), x) == centerX && MapY(ImageViewMatrix(st), y) == centerY
    ensures var r := ZoomTo(st, scale, centerX, centerY);
            var zoomed := PostScale(ImageViewMatrix(st), Min(scale, st.maxZoom) / GetScale(st), centerX, centerY);
            var d := CenterDelta(zoomed, st.bitmap.value, st.width, st.height, true, true);
            MapX(r.matrix, x) == centerX + d.0 && MapY(r.matrix, y) == centerY + d.1 &&
            (Settled(zoomed, st.bitmap.value, st.width, st.height, true, true) ==>
               MapX(r.matrix, x) == centerX && MapY(r.matrix, y) == centerY)
  {
    var zoomed := PostScale(ImageViewMatrix(st), Min(scale, st.maxZoom) / GetScale(st), centerX, centerY);
    var d := CenterDelta(zoomed, st.bitmap.value, st.width, st.height, true, true);
    PostScaleKeepsPivot(ImageViewMatrix(st), Min(scale, st.maxZoom) / GetScale(st), centerX, centerY, x, y);
    PostTranslateMaps(zoomed, d.0, d.1, x, y);
  }

  /** zoomTo clamps only from above: with room under the cap, a scale below 1 is reached as asked. */
  lemma ZoomToHasNoFloor(st: ViewState, centerX: real, centerY: real)
    requires WellFormed(st) && st.bitmap.Some? && GetScale(st) != 0.0 && st.maxZoom >= 0.5
    ensures GetScale(ZoomTo(st, 0.5, centerX, centerY)) == 0.5
  {
  }

  // ---- zoomIn / zoomOut ----

  /** zoomIn(rate) multiplies the scale by rate with no cap and leaves the translation uncentered. */
  lemma ZoomInUnclamped(st: ViewState, rate: real)
    requires st.bitmap.Some?
    ensures var r := ZoomIn(st, rate);
            GetScale(r) == rate * GetScale(st) &&
            r.supp == PostScale(st.supp, rate, MidX(st), MidY(st)) &&
            r.matrix == ImageViewMatrix(r)
  {
  }

  /** zoomOut() shrinks by 1.25 while that keeps the scale at least 1, and otherwise snaps to exactly 1. */
  lemma ZoomOutSnapsToOne(st: ViewState)
    requires WellFormed(st) && st.bitmap.Some?
    ensures var r := ZoomOut(st, ScaleRate);
            (st.supp.s / ScaleRate >= 1.0 ==> GetScale(r) == st.supp.s / ScaleRate) &&
            (st.supp.s / ScaleRate < 1.0 ==> GetScale(r) == 1.0) &&
            GetScale(r) >= 1.0
  {
    assert (1.0 / ScaleRate) * st.supp.s == st.supp.s / ScaleRate;
  }

  /** The undershoot test of zoomOut(rate) always uses 1.25: with rate 2 a scale of 1.5 drops to 0.75. */
  lemma ZoomOutRateIsFixed(st: ViewState)
    requires WellFormed(st) && st.bitmap.Some? && st.supp.s == 1.5
    ensures GetScale(ZoomOut(st, 2.0)) == 0.75
  {
  }

  /** Without a bitmap zoomIn and zoomOut do nothing. */
  lemma ZoomWithoutBitmap(st: ViewState, rate: real)
    requires st.bitmap.None? && rate != 0.0
    ensures ZoomIn(st, rate) == st && ZoomOut(st, rate) == st
  {
  }

  // ---- setImageBitmap / onLayout / clear ----

  /** Before layout, setImageBitmap only stores the pending call, and the last call wins. */
  lemma SetImageBitmapDefers(st: ViewState, first: Option<Bitmap>, second: Option<Bitmap>)
    requires WellFormed(st) && st.width <= 0
    ensures SetImageBitmap(st, first) == st.(onLayout := Some(first))
    ensures SetImageBitmap(SetImageBitmap(st, first), second) == st.(onLayout := Some(second))
  {
  }

  /**
   * After layout, setImageBitmap(b) leaves the fit-and-center base matrix,
   * mMaxZoom = maxZoom(), a settled image at scale min(zoomDefault(), maxZoom()),
   * and mMatrix = base followed by supp.
   */
  lemma SetImageBitmapInitialZoom(st: ViewState, b: Bitmap)
    requires WellFormed(st) && st.width > 0
    ensures var r := SetImageBitmap(st, Some(b));
            r.bitmap == Some(b) && r.base == BaseMatrix(b, st.width, st.height) &&
            r.maxZoom == MaxZoom(Some(b), st.width, st.height) &&
            GetScale(r) == Min(ZoomDefault(Some(b), st.width, st.height), r.maxZoom) &&
            r.matrix == ImageViewMatrix(r) &&
            Settled(r.matrix, b, st.width, st.height, true, true) &&
            r.onLayout == st.onLayout && r.zooms == st.zooms && r.flings == st.flings
  {
  }

  /** After layout, setImageBitmap(null) leaves every matrix the identity and mMaxZoom at 1. */
  lemma SetImageBitmapNone(st: ViewState)
    requires WellFormed(st) && st.width > 0
    ensures var r := SetImageBitmap(st, None);
            r.bitmap.None? && r.base == Identity && r.supp == Identity && r.matrix == Identity &&
            r.maxZoom == 1.0 && GetScale(r) == 1.0
  {
    var reset := ResetForBitmap(st, None);
    SetImageBitmapSteps(st, None);
    assert ZoomDefault(None, st.width, st.height) == 1.0;
    ZoomToOneWithoutBitmap(reset, MidX(reset), MidY(reset));
  }

  /** After layout, setImageBitmap is the reset followed by zoomTo(zoomDefault()). */
  lemma SetImageBitmapSteps(st: ViewState, bitmap: Option<Bitmap>)
    requires WellFormed(st) && st.width > 0
    ensures SetImageBitmap(st, bitmap)
            == ZoomToViewCenter(ResetForBitmap(st, bitmap), ZoomDefault(bitmap, st.width, st.height))
  {
  }

  /** Without a bitmap zoomTo scales mSuppMatrix by the capped scale itself (getScale() is 1) and publishes. */
  lemma ZoomToWithoutBitmap(st: ViewState, scale: real, centerX: real, centerY: real)
    requires WellFormed(st) && st.bitmap.None?
    ensures ZoomTo(st, scale, centerX, centerY)
            == Publish(st.(supp := PostScale(st.supp, Min(scale, st.maxZoom), centerX, centerY)))
  {
    var capped := if scale > st.maxZoom then st.maxZoom else scale;
    assert capped / GetScale(st) == Min(scale, st.maxZoom);
  }

  /** Without a bitmap and with an identity supp, zoomTo(1) leaves supp alone and publishes. */
  lemma ZoomToOneWithoutBitmap(st: ViewState, centerX: real, centerY: real)
    requires WellFormed(st) && st.bitmap.None? && st.supp == Identity && st.maxZoom >= 1.0
    ensures ZoomTo(st, 1.0, centerX, centerY) == Publish(st)
  {
    ZoomToWithoutBitmap(st, 1.0, centerX, centerY);
    assert Min(1.0, st.maxZoom) == 1.0;
    PostScaleByOne(st.supp, centerX, centerY);
  }

  /** After layout, setImageBitmap forgets whatever was set before it. */
  lemma SetImageBitmapReplaces(st: ViewState, first: Option<Bitmap>, second: Option<Bitmap>)
    requires WellFormed(st) && st.width > 0
    ensures SetImageBitmap(SetImageBitmap(st, first), second) == SetImageBitmap(st, second)
  {
    var mid := SetImageBitmap(st, first);
    SetImageBitmapSteps(st, second);
    SetImageBitmapSteps(mid, second);
    assert ResetForBitmap(mid, second) == ResetForBitmap(st, second);
  }

  /** Setting a bitmap, then none, then the same bitmap again reproduces the first state exactly. */
  lemma SetImageBitmapRoundTrip(st: ViewState, b: Bitmap)
    requires WellFormed(st) && st.width > 0
    ensures SetImageBitmap(SetImageBitmap(SetImageBitmap(st, Some(b)), None), Some(b))
            == SetImageBitmap(st, Some(b))
  {
    SetImageBitmapReplaces(st, Some(b), None);
    SetImageBitmapReplaces(SetImageBitmap(st, Some(b)), None, Some(b));
    SetImageBitmapReplaces(st, Some(b), Some(b));
  }

  /**
   * onLayout clears the pending setImageBitmap and runs it once, on the new
   * size; then it rebuilds the base matrix if a bitmap is set.
   */
  lemma OnLayoutRunsPendingOnce(st: ViewState, b: Option<Bitmap>, left: int, top: int, right: int, bottom: int)
    requires WellFormed(st) && right - left > 0 && bottom - top > 0 && st.onLayout == Some(b)
    ensures var sized := ClearPending(Resize(st, right - left, bottom - top));
            var r := OnLayout(st, left, top, right, bottom);
            r == Rebase(SetImageBitmap(sized, b)) && r.onLayout.None? && r.bitmap == b
  {
  }

  /**
   * With nothing pending, onLayout rebuilds the base matrix for the new size
   * and republishes, but does not reset mSuppMatrix.
   */
  lemma OnLayoutKeepsSupp(st: ViewState, left: int, top: int, right: int, bottom: int)
    requires WellFormed(st) && right - left > 0 && bottom - top > 0 && st.onLayout.None?
    ensures var r := OnLayout(st, left, top, right, bottom);
            r.supp == st.supp && r.bitmap == st.bitmap && r.maxZoom == st.maxZoom &&
            r == Resize(st, right - left, bottom - top).(base := r.base, matrix := r.matrix) &&
            (st.bitmap.None? ==> r == Resize(st, right - left, bottom - top)) &&
            (st.bitmap.Some? ==> r.base == BaseMatrix(st.bitmap.value, right - left, bottom - top) &&
                                 r.matrix == ImageViewMatrix(r))
  {
  }

  /** clear() drops the bitmap, after which getScale() is 1 and center() does nothing. */
  lemma ClearResetsScale(st: ViewState)
    ensures GetScale(Clear(st)) == 1.0 && Center(Clear(st), true, true) == Clear(st)
    ensures Clear(st).supp == st.supp && Clear(st).maxZoom == st.maxZoom
  {
  }

  // ---- gestures ----

  /** Without a bitmap a touch event changes nothing; it is consumed either way. */
  lemma TouchWithoutBitmap(st: ViewState, scale: Option<ScaleSample>, pinching: bool, g: Gesture, now: int)
    requires WellFormed(st) && st.bitmap.None?
    ensures OnTouchEvent(st, scale, pinching, g, now) == (st, true)
  {
  }

  /** While a pinch is in progress the gesture detector is not fed: only onScale acts. */
  lemma PinchSuppressesGestures(st: ViewState, scale: Option<ScaleSample>, g: Gesture, now: int)
    requires WellFormed(st) && GetScale(st) != 0.0
    ensures OnTouchEvent(st, scale, true, g, now) == OnTouchEvent(st, scale, true, NoGesture, now)
    ensures st.bitmap.Some? ==>
      OnTouchEvent(st, scale, true, g, now).0 == (if scale.Some? then OnScale(st, scale.value).0 else st)
  {
  }

  /**
   * With a bitmap and no pinch in progress, the event goes to the scale
   * detector first and then to the gesture detector, whose callback acts on
   * the state the scale detector left.
   */
  lemma TouchFeedsGestures(st: ViewState, scale: Option<ScaleSample>, g: Gesture, now: int)
    requires WellFormed(st) && GetScale(st) != 0.0 && st.bitmap.Some?
    ensures var scaled := if scale.Some? then OnScale(st, scale.value).0 else st;
            OnTouchEvent(st, scale, false, g, now) == (DispatchGesture(scaled, g, false, now), true)
  {
  }

  /**
   * When mMaxZoom is still maxZoom() (no relayout since the bitmap was set), a
   * pinch keeps the scale between min(1, maxZoom()) and maxZoom().
   */
  lemma OnScaleBounded(st: ViewState, detector: ScaleSample)
    requires WellFormed(st) && st.bitmap.Some? && GetScale(st) != 0.0 && detector.inProgress
    requires st.maxZoom == ViewMaxZoom(st)
    ensures Min(1.0, st.maxZoom) <= GetScale(OnScale(st, detector).0) <= st.maxZoom
  {
  }

  /** onScroll ignores multi-pointer events and events during a pinch. */
  lemma OnScrollGuards(st: ViewState, e1: Option<Pointer>, e2: Option<Pointer>, pinching: bool,
                       dx: real, dy: real)
    requires WellFormed(st) && (MultiTouch(e1) || MultiTouch(e2) || pinching)
    ensures OnScroll(st, e1, e2, pinching, dx, dy) == (st, false)
  {
  }

  /**
   * A single-pointer scroll pans only when zoomed past zoomDefault(): it cancels
   * mFling, translates by (-dx, -dy) and centers; otherwise nothing changes.
   */
  lemma OnScrollPansWhenZoomed(st: ViewState, e1: Option<Pointer>, e2: Option<Pointer>, dx: real, dy: real)
    requires WellFormed(st) && !MultiTouch(e1) && !MultiTouch(e2)
    ensures var r := OnScroll(st, e1, e2, false, dx, dy).0;
            (GetScale(st) > ViewZoomDefault(st) ==>
               r == Center(PostTranslateSupp(CancelFling(st), -dx, -dy), true, true) &&
               forall f :: f in r.flings ==> st.fling != Some(f.id)) &&
            (GetScale(st) <= ViewZoomDefault(st) ==> r == st)
  {
  }

  /** removeCallbacks(mFling) takes exactly the runnable mFling refers to off the queue. */
  lemma CancelFlingRemovesCurrent(st: ViewState)
    requires st.fling.Some?
    ensures forall f :: f in CancelFling(st).flings <==> f in st.flings && f.id != st.fling.value
  {
  }

  /**
   * onFling starts scrollBy(diffX / 2, diffY / 2, 300) exactly when one pointer
   * is involved, no pinch is in progress, both events are known and |vx| or
   * |vy| exceeds 800; otherwise nothing changes.
   */
  lemma OnFlingScrollsIff(st: ViewState, e1: Option<Pointer>, e2: Option<Pointer>, vx: real, vy: real,
                          pinching: bool, now: int)
    requires WellFormed(st)
    ensures var go := !MultiTouch(e1) && !MultiTouch(e2) && !pinching && e1.Some? && e2.Some? &&
                      (Abs(vx) > FlingVelocity || Abs(vy) > FlingVelocity);
            var r := OnFling(st, e1, e2, vx, vy, pinching, now).0;
            (go ==> r == ScrollBy(st, (e2.value.x - e1.value.x) / 2.0, (e2.value.y - e1.value.y) / 2.0,
                                  FlingDuration, now)) &&
            (!go ==> r == st)
  {
  }

  /**
   * onDoubleTap: zoomed past zoomDefault(), it zooms back to zoomDefault() at
   * once; otherwise it posts a 200 ms zoom about the tap whose last run asks
   * for exactly 3 * zoomDefault().
   */
  lemma OnDoubleTapCases(st: ViewState, x: real, y: real, now: int, later: int)
    requires WellFormed(st) && GetScale(st) != 0.0 && later - now >= 200
    ensures var r := OnDoubleTap(st, x, y, now).0;
            (GetScale(st) > ViewZoomDefault(st) ==> r == ZoomToViewCenter(st, ViewZoomDefault(st))) &&
            (GetScale(st) <= ViewZoomDefault(st) ==>
               r == st.(zooms := r.zooms) && |r.zooms| == |st.zooms| + 1 &&
               var t := r.zooms[|st.zooms|];
               t.centerX == x && t.centerY == y && t.durationMs == DoubleTapDuration &&
               t.oldScale == GetScale(st) && t.startTime == now &&
               r.zooms[..|st.zooms|] == st.zooms &&
               r == ZoomToOverTime(st, ViewZoomDefault(st) * DoubleTapFactor, x, y, DoubleTapDuration, now) &&
               ZoomTarget(t, later) == DoubleTapFactor * ViewZoomDefault(st))
  {
    if GetScale(st) <= ViewZoomDefault(st) {
      ZoomTargetInterpolates(GetScale(st), ViewZoomDefault(st) * DoubleTapFactor, x, y,
                             DoubleTapDuration, now, later);
    }
  }

  // ---- timed runnables ----

  /**
   * One run of a timed zoom zooms to its interpolated target (capped by
   * mMaxZoom) and re-posts itself exactly while its duration has not passed.
   */
  lemma RunZoomTaskStep(st: ViewState, i: nat, now: int)
    requires WellFormed(st) && i < |st.zooms| && GetScale(st) != 0.0
    ensures var t := st.zooms[i];
            var r := RunZoomTask(st, i, now);
            var z := ZoomTo(st.(zooms := RemoveAt(st.zooms, i)), ZoomTarget(t, now), t.centerX, t.centerY);
            (st.bitmap.Some? ==> GetScale(r) == Min(ZoomTarget(t, now), st.maxZoom)) &&
            r.zooms == RemoveAt(st.zooms, i) + (if ZoomElapsed(t, now) < t.durationMs then [t] else []) &&
            r == (if ZoomElapsed(t, now) < t.durationMs then z.(zooms := z.zooms + [t]) else z) &&
            r == st.(supp := r.supp, matrix := r.matrix, zooms := r.zooms)
  {
  }

  /**
   * One run of a fling translates mSuppMatrix by the run's ease-out increment
   * and then centers (without a bitmap the translation stays uncentered); it
   * re-posts itself, with old_x and old_y advanced to the ease-out offsets
   * reached, exactly while its duration has not passed.
   */
  lemma RunFlingTaskStep(st: ViewState, i: nat, now: int)
    requires WellFormed(st) && i < |st.flings|
    ensures var t := st.flings[i];
            var run := FlingTick(t, now);
            var r := RunFlingTask(st, i, now);
            r.supp.s == st.supp.s &&
            r.flings == RemoveAt(st.flings, i) + (if FlingElapsed(t, now) < t.durationMs then [run.task] else []) &&
            run.task.oldX == EaseOut(FlingElapsed(t, now), 0.0, t.dx, t.durationMs) &&
            run.task.oldY == EaseOut(FlingElapsed(t, now), 0.0, t.dy, t.durationMs) &&
            (st.bitmap.None? ==> r.supp == PostTranslate(st.supp, run.moveX, run.moveY)) &&
            (st.bitmap.Some? ==> Settled(r.matrix, st.bitmap.value, st.width, st.height, true, true) &&
                                 r.matrix == ImageViewMatrix(r))
  {
  }

  /**
   * A fast single-pointer fling posts a fresh runnable that becomes mFling
   * and, run at any clock readings whose last one is at least 300 ms after
   * the fling, posts translations that add up to half the distance between
   * the two events.
   */
  lemma OnFlingMovesHalfDistance(st: ViewState, e1: Pointer, e2: Pointer, vx: real, vy: real,
                                 now: int, nows: seq<int>)
    requires WellFormed(st) && e1.pointerCount <= 1 && e2.pointerCount <= 1
    requires Abs(vx) > FlingVelocity || Abs(vy) > FlingVelocity
    requires nows != [] && (nows[|nows| - 1] - now) as real >= FlingDuration
    ensures var r := OnFling(st, Some(e1), Some(e2), vx, vy, false, now).0;
            |r.flings| == |st.flings| + 1 &&
            var t := r.flings[|st.flings|];
            r.fling == Some(t.id) && t.startTime == now && t.durationMs == FlingDuration &&
            SumX(FlingMoves(t, nows)) == (e2.x - e1.x) / 2.0 &&
            SumY(FlingMoves(t, nows)) == (e2.y - e1.y) / 2.0
  {
    var r := OnFling(st, Some(e1), Some(e2), vx, vy, false, now).0;
    var t := r.flings[|st.flings|];
    assert t == FlingTask(st.nextId, (e2.x - e1.x) / 2.0, (e2.y - e1.y) / 2.0, FlingDuration, now, 0.0, 0.0);
    FlingCoversDistance(t, nows);
  }

  // ---- drawing ----

  /**
   * On the software path a filtered draw happens exactly when more than 250 ms
   * passed since the last one, and it records the time; an unfiltered draw
   * leaves exactly one refresh pending, due 250 ms later.
   */
  lemma OnDrawDebounce(st: ViewState, now: int, recycled: bool)
    requires st.bitmap.Some? && !recycled
    ensures var r := OnDraw(st, now, false, recycled);
            (r.1 == Filtered <==> now - st.lastDraw > PaintDelay) &&
            (r.1 == Filtered ==> r.0 == st.(lastDraw := now)) &&
            (r.1 != Filtered ==> r.1 == Unfiltered && r.0 == st.(refresh := Some(now + PaintDelay)))
  {
  }

  /** A hardware layer always draws unfiltered and leaves the debounce state alone. */
  lemma OnDrawHardware(st: ViewState, now: int)
    requires st.bitmap.Some?
    ensures OnDraw(st, now, true, false) == (st, Unfiltered)
  {
  }

  /**
   * Two software draws 100 ms apart inside the debounce window leave one
   * refresh pending, due 250 ms after the second.
   */
  lemma OnDrawBurst(st: ViewState, now: int)
    requires st.bitmap.Some? && now - st.lastDraw <= PaintDelay
    ensures var first := OnDraw(st, now, false, false).0;
            var second := OnDraw(first, now + 100, false, false);
            now + 100 - st.lastDraw > PaintDelay ==> second.1 == Filtered && second.0.lastDraw == now + 100
    ensures var first := OnDraw(st, now, false, false).0;
            var second := OnDraw(first, now + 100, false, false);
            now + 100 - st.lastDraw <= PaintDelay ==> second.0.refresh == Some(now + 100 + PaintDelay)
  {
  }
}
