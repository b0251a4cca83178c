/**
 * ZoomableImageView as an object: the fields the Java class updates in place,
 * and one method per operation, each proved to take the view from State() to
 * the state the matching function of ViewModel describes.
 */
module View {
  import opened Wrappers
  import opened Num
  import Matrix
  import opened Geometry
  import opened Centering
  import opened Timing
  import opened ViewModel

  class ZoomableImageView {
    var width: int                      // mThisWidth (also getWidth())
    var height: int                     // mThisHeight (also getHeight())
    var bitmap: Option<Bitmap>          // mBitmap
    var onLayoutRunnable: Option<Option<Bitmap>>  // mOnLayoutRunnable: the setImageBitmap it will run
    var baseMatrix: Matrix.Affine       // mBaseMatrix
    var suppMatrix: Matrix.Affine       // mSuppMatrix
    var imageMatrix: Matrix.Affine      // mMatrix
    var maxZoom: real                   // mMaxZoom
    var lastDraw: int                   // mLastDraw
    var refresh: Option<int>            // the due time of the posted mRefresh
    var zoomTasks: seq<ZoomTask>        // posted timed-zoom runnables
    var flingTasks: seq<FlingTask>      // posted scrollBy runnables
    var fling: Option<nat>              // the id of the runnable mFling refers to
    var nextTaskId: nat                 // the id the next scrollBy runnable gets

    /** The fields as one ViewModel state. */
    function State(): ViewState
      reads this
    {
      ViewState(width, height, bitmap, onLayoutRunnable, baseMatrix, suppMatrix, imageMatrix,
                maxZoom, lastDraw, refresh, zoomTasks, flingTasks, fling, nextTaskId)
    }

    ghost predicate Valid()
      reads this
    {
      WellFormed(State())
    }

    /** new ZoomableImageView(context): not laid out, no bitmap, every matrix the identity. */
    constructor()
      ensures Valid() && State() == Initial
    {
      width, height := -1, -1;
      bitmap, onLayoutRunnable := None, None;
      baseMatrix, suppMatrix, imageMatrix := Matrix.Identity, Matrix.Identity, Matrix.Identity;
      maxZoom, lastDraw, refresh := 0.0, 0, None;
      zoomTasks, flingTasks, fling, nextTaskId := [], [], None, 0;
      InitialWellFormed();
    }

    /** getScale() */
    function GetScale(): (r: real)
      reads this
      ensures r == ViewModel.GetScale(State())
    {
      if bitmap.None? then 1.0 else suppMatrix.s
    }

    /** getImageViewMatrix() */
    function GetImageViewMatrix(): (r: Matrix.Affine)
      reads this
      ensures r == ImageViewMatrix(State())
    {
      var base, supp := baseMatrix, suppMatrix;
      Matrix.Affine(supp.s * base.s, supp.s * base.tx + supp.tx, supp.s * base.ty + supp.ty)
    }

    /** setImageMatrix(m): an identity argument is stored as the identity, so mMatrix becomes m. */
    method SetImageMatrix(m: Matrix.Affine)
      modifies this
      ensures State() == old(State()).(matrix := m)
    {
      imageMatrix := m;
    }

    /** postTranslate(dx, dy) */
    method PostTranslate(dx: real, dy: real)
      modifies this
      ensures State() == PostTranslateSupp(old(State()), dx, dy)
    {
      suppMatrix := Matrix.PostTranslate(suppMatrix, dx, dy);
    }

    /** center(vertical, horizontal, false) */
    method Center(vertical: bool, horizontal: bool)
      modifies this
      ensures State() == ViewModel.Center(old(State()), vertical, horizontal)
    {
      if bitmap.None? {
        return;
      }
      var delta := CenterDelta(GetImageViewMatrix(), bitmap.value, width, height, vertical, horizontal);
      PostTranslate(delta.0, delta.1);
      SetImageMatrix(GetImageViewMatrix());
    }

    /** zoomTo(scale, centerX, centerY) */
    method ZoomTo(scale: real, centerX: real, centerY: real)
      requires Valid() && GetScale() != 0.0
      modifies this
      ensures Valid() && State() == ViewModel.ZoomTo(old(State()), scale, centerX, centerY)
    {
      var capped := if scale > maxZoom then maxZoom else scale;
      var deltaScale := capped / GetScale();
      suppMatrix := Matrix.PostScale(suppMatrix, deltaScale, centerX, centerY);
      SetImageMatrix(GetImageViewMatrix());
      Center(true, true);
    }

    /** zoomTo(scale): zoom about the middle of the view. */
    method ZoomToViewCenter(scale: real)
      requires Valid() && GetScale() != 0.0
      modifies this
      ensures Valid() && State() == ViewModel.ZoomToViewCenter(old(State()), scale)
    {
      ZoomTo(scale, MidX(State()), MidY(State()));
    }

    /** zoomTo(scale, centerX, centerY, durationMs), at clock reading `now`: post the timed zoom. */
    method ZoomToOverTime(scale: real, centerX: real, centerY: real, durationMs: real, now: int)
      requires Valid() && durationMs != 0.0
      modifies this
      ensures Valid() && State() == ViewModel.ZoomToOverTime(old(State()), scale, centerX, centerY, durationMs, now)
    {
      zoomTasks := zoomTasks + [NewZoomTask(GetScale(), scale, centerX, centerY, durationMs, now)];
    }

    /** The i-th posted timed-zoom runnable runs at clock reading `now`, and posts itself again until done. */
    method RunZoomTask(i: nat, now: int)
      requires Valid() && i < |zoomTasks| && GetScale() != 0.0
      modifies this
      ensures Valid() && State() == ViewModel.RunZoomTask(old(State()), i, now)
    {
      var task := zoomTasks[i];
      zoomTasks := RemoveAt(zoomTasks, i);
      var currentMs := ZoomElapsed(task, now);
      ZoomTo(ZoomTarget(task, now), task.centerX, task.centerY);
      if currentMs < task.durationMs {
        zoomTasks := zoomTasks + [task];
      }
    }

    /** zoomIn(rate) */
    method ZoomIn(rate: real)
      requires Valid()
      modifies this
      ensures Valid() && State() == ViewModel.ZoomIn(old(State()), rate)
    {
      if bitmap.None? {
        return;
      }
      var cx, cy := MidX(State()), MidY(State());
      suppMatrix := Matrix.PostScale(suppMatrix, rate, cx, cy);
      SetImageMatrix(GetImageViewMatrix());
    }

    /** zoomOut(rate) */
    method ZoomOut(rate: real)
      requires Valid() && rate != 0.0
      modifies this
      ensures Valid() && State() == ViewModel.ZoomOut(old(State()), rate)
    {
      if bitmap.None? {
        return;
      }
      ShrinkSupp(rate);
      SetImageMatrix(GetImageViewMatrix());
      Center(true, true);
    }

    /** The branch of zoomOut(rate) that picks the new mSuppMatrix. */
    method ShrinkSupp(rate: real)
      requires rate != 0.0
      modifies this
      ensures State() == old(State()).(supp := ZoomOutSupp(old(State()), rate))
    {
      var cx, cy := MidX(State()), MidY(State());
      var tmp := Matrix.PostScale(suppMatrix, 1.0 / ScaleRate, cx, cy);
      if tmp.s < 1.0 {
        suppMatrix := Matrix.ScaleAbout(1.0, cx, cy);
      } else {
        suppMatrix := Matrix.PostScale(suppMatrix, 1.0 / rate, cx, cy);
      }
    }

    /** setBaseMatrix(bitmap, mBaseMatrix) */
    method SetBaseMatrix(b: Bitmap)
      modifies this
      ensures State() == old(State()).(base := BaseMatrix(b, width, height))
    {
      baseMatrix := BaseMatrix(b, width, height);
    }

    /** setImageBitmap(bitmap) */
    method SetImageBitmap(b: Option<Bitmap>)
      requires Valid()
      modifies this
      ensures State() == ViewModel.SetImageBitmap(old(State()), b)
      ensures Valid()
    {
      if width <= 0 {
        DeferBitmap(b);
        return;
      }
      LoadBitmap(b);
    }

    /** setImageBitmap(bitmap) once the view has a width */
    method LoadBitmap(b: Option<Bitmap>)
      requires Valid() && width > 0
      modifies this
      ensures State() == ViewModel.LoadBitmap(old(State()), b)
    {
      ResetForBitmap(b);
      ZoomToDefault();
    }

    /** The part of setImageBitmap(bitmap) before its zoomTo, once the view has a width. */
    method ResetForBitmap(b: Option<Bitmap>)
      requires Valid() && width > 0
      modifies this
      ensures State() == ViewModel.ResetForBitmap(old(State()), b)
    {
      var newMaxZoom := MaxZoom(b, width, height);
      ghost var start := State();
      AdoptBitmap(b);
      suppMatrix := Matrix.Identity;
      ghost var reset := State();
      assert reset == ViewModel.AdoptBitmap(start, b).(supp := Matrix.Identity);
      SetImageMatrix(GetImageViewMatrix());
      assert State() == Publish(reset);
      StoreMaxZoom(newMaxZoom);
      assert State() == Publish(reset).(maxZoom := newMaxZoom);
    }

    /** zoomTo(zoomDefault()) */
    method ZoomToDefault()
      requires Valid() && GetScale() != 0.0
      modifies this
      ensures State() == ViewModel.ZoomToViewCenter(old(State()), ViewZoomDefault(old(State())))
    {
      ZoomToViewCenter(ZoomDefault(bitmap, width, height));
    }

    /** mOnLayoutRunnable = a runnable that calls setImageBitmap(b) */
    method DeferBitmap(b: Option<Bitmap>)
      modifies this
      ensures State() == old(State()).(onLayout := Some(b))
    {
      onLayoutRunnable := Some(b);
    }

    /** mMaxZoom = z */
    method StoreMaxZoom(z: real)
      modifies this
      ensures State() == old(State()).(maxZoom := z)
    {
      maxZoom := z;
    }

    /** The branch of setImageBitmap(bitmap) that rebuilds mBaseMatrix and stores the bitmap. */
    method AdoptBitmap(b: Option<Bitmap>)
      modifies this
      ensures State() == ViewModel.AdoptBitmap(old(State()), b)
    {
      if b.Some? {
        SetBaseMatrix(b.value);
      } else {
        baseMatrix := Matrix.Identity;
      }
      bitmap := b;
    }

    /** onLayout(changed, left, top, right, bottom) */
    method OnLayout(left: int, top: int, right: int, bottom: int)
      requires Valid() && right - left > 0 && bottom - top > 0
      modifies this
      ensures State() == ViewModel.OnLayout(old(State()), left, top, right, bottom)
      ensures Valid()
    {
      SetFrame(right - left, bottom - top);
      ghost var sized := State();
      RunPending();
      ghost var ran := State();
      Rebase();
      assert State() == ViewModel.Rebase(ran) && ran == ViewModel.RunPending(sized);
    }

    /** The first step of onLayout: record the frame size. */
    method SetFrame(w: int, h: int)
      requires Valid() && w > 0 && h > 0
      modifies this
      ensures Valid() && State() == Resize(old(State()), w, h)
    {
      width := w;
      height := h;
    }

    /** Run the setImageBitmap(bitmap) that was deferred until the view had a size. */
    method RunPending()
      requires Valid() && width > 0
      modifies this
      ensures Valid() && State() == ViewModel.RunPending(old(State()))
    {
      var r := onLayoutRunnable;
      if r.Some? {
        onLayoutRunnable := None;
        SetImageBitmap(r.value);
      }
    }

    /** The last step of onLayout: rebuild and publish the base matrix for the new size. */
    method Rebase()
      requires Valid()
      modifies this
      ensures Valid() && State() == ViewModel.Rebase(old(State()))
    {
      if bitmap.Some? {
        SetBaseMatrix(bitmap.value);
        SetImageMatrix(GetImageViewMatrix());
      }
    }

    /** clear() */
    method Clear()
      modifies this
      ensures State() == ViewModel.Clear(old(State()))
    {
      if bitmap.Some? {
        bitmap := None;
      }
    }

    /** scrollBy(distanceX, distanceY, durationMs) at clock reading `now`: post a new mFling. */
    method ScrollBy(distanceX: real, distanceY: real, durationMs: real, now: int)
      requires Valid() && durationMs != 0.0
      modifies this
      ensures Valid() && State() == ViewModel.ScrollBy(old(State()), distanceX, distanceY, durationMs, now)
    {
      var task := FlingTask(nextTaskId, distanceX, distanceY, durationMs, now, 0.0, 0.0);
      flingTasks := flingTasks + [task];
      fling := Some(nextTaskId);
      nextTaskId := nextTaskId + 1;
    }

    /** removeCallbacks(mFling) */
    method CancelFling()
      requires Valid()
      modifies this
      ensures Valid() && State() == ViewModel.CancelFling(old(State()))
    {
      if fling.Some? {
        flingTasks := WithoutTask(flingTasks, fling.value);
      }
    }

    /** The i-th posted fling runnable runs at clock reading `now`, and posts itself again until done. */
    method RunFlingTask(i: nat, now: int)
      requires Valid() && i < |flingTasks|
      modifies this
      ensures Valid() && State() == ViewModel.RunFlingTask(old(State()), i, now)
    {
      var task := flingTasks[i];
      flingTasks := RemoveAt(flingTasks, i);
      var run := FlingTick(task, now);
      PostTranslate(run.moveX, run.moveY);
      Center(true, true);
      if run.again {
        flingTasks := flingTasks + [run.task];
      }
    }

    /** onDraw(canvas) at clock reading `now`, for the layer type and the bitmap's recycled flag. */
    method OnDraw(now: int, hardwareLayer: bool, recycled: bool) returns (kind: DrawKind)
      modifies this
      ensures (State(), kind) == ViewModel.OnDraw(old(State()), now, hardwareLayer, recycled)
    {
      if bitmap.None? || recycled {
        return NoDraw;
      }
      if hardwareLayer {
        return Unfiltered;
      }
      if now - lastDraw > PaintDelay {
        kind := Filtered;
        lastDraw := now;
      } else {
        kind := Unfiltered;
        refresh := Some(now + PaintDelay);
      }
    }

    /** The posted mRefresh runs. */
    method RunRefresh()
      requires refresh.Some?
      modifies this
      ensures State() == ViewModel.RunRefresh(old(State()))
    {
      refresh := None;
    }

    /** ScaleListener.onScale(detector) */
    method OnScale(detector: ScaleSample) returns (handled: bool)
      requires Valid() && GetScale() != 0.0
      modifies this
      ensures Valid() && (State(), handled) == ViewModel.OnScale(old(State()), detector)
    {
      if !detector.inProgress {
        return false;
      }
      var targetScale := PinchTarget(State(), detector);
      ZoomTo(targetScale, detector.focusX, detector.focusY);
      handled := true;
    }

    /** MyGestureListener.onScroll(e1, e2, distanceX, distanceY), with the scale detector's state `pinching`. */
    method OnScroll(e1: Option<Pointer>, e2: Option<Pointer>, pinching: bool, distanceX: real, distanceY: real)
      returns (handled: bool)
      requires Valid()
      modifies this
      ensures Valid() && (State(), handled) == ViewModel.OnScroll(old(State()), e1, e2, pinching, distanceX, distanceY)
    {
      if MultiTouch(e1) || MultiTouch(e2) || pinching {
        return false;
      }
      if GetScale() > ZoomDefault(bitmap, width, height) {
        Pan(distanceX, distanceY);
      }
      handled := true;
    }

    /** The zoomed-in branch of onScroll. */
    method Pan(distanceX: real, distanceY: real)
      requires Valid()
      modifies this
      ensures Valid() && State() == ViewModel.Pan(old(State()), distanceX, distanceY)
    {
      CancelFling();
      PostTranslate(-distanceX, -distanceY);
      Center(true, true);
    }

    /** MyGestureListener.onDoubleTap(e) at clock reading `now`. */
    method OnDoubleTap(x: real, y: real, now: int) returns (handled: bool)
      requires Valid() && GetScale() != 0.0
      modifies this
      ensures Valid() && (State(), handled) == ViewModel.OnDoubleTap(old(State()), x, y, now)
    {
      if GetScale() > ZoomDefault(bitmap, width, height) {
        ZoomToViewCenter(ZoomDefault(bitmap, width, height));
      } else {
        ZoomToOverTime(ZoomDefault(bitmap, width, height) * DoubleTapFactor, x, y, DoubleTapDuration, now);
      }
      handled := true;
    }

    /** MyGestureListener.onFling(e1, e2, velocityX, velocityY) at clock reading `now`. */
    method OnFling(e1: Option<Pointer>, e2: Option<Pointer>, velocityX: real, velocityY: real,
                   pinching: bool, now: int) returns (handled: bool)
      requires Valid()
      modifies this
      ensures Valid() && (State(), handled) == ViewModel.OnFling(old(State()), e1, e2, velocityX, velocityY, pinching, now)
    {
      if MultiTouch(e1) || MultiTouch(e2) {
        return false;
      }
      if pinching {
        return false;
      }
      if e1.Some? && e2.Some? {
        var diffX := e2.value.x - e1.value.x;
        var diffY := e2.value.y - e1.value.y;
        if Abs(velocityX) > FlingVelocity || Abs(velocityY) > FlingVelocity {
          ScrollBy(diffX / 2.0, diffY / 2.0, FlingDuration, now);
        }
      }
      handled := false;
    }

    /** The gesture detector delivers the callback `g` for one event. */
    method DispatchGesture(g: Gesture, pinching: bool, now: int)
      requires Valid() && GetScale() != 0.0
      modifies this
      ensures Valid() && State() == ViewModel.DispatchGesture(old(State()), g, pinching, now)
    {
      match g
      case NoGesture =>
      case Scroll(e1, e2, dx, dy) =>
        var _ := OnScroll(e1, e2, pinching, dx, dy);
      case Fling(e1, e2, vx, vy) =>
        var _ := OnFling(e1, e2, vx, vy, pinching, now);
      case DoubleTap(x, y) =>
        var _ := OnDoubleTap(x, y, now);
    }

    /**
     * onTouchEvent(event): `scale` is what the scale detector passes to onScale,
     * `pinching` its isInProgress() afterwards, and `g` the gesture callback.
     */
    method OnTouchEvent(scale: Option<ScaleSample>, pinching: bool, g: Gesture, now: int) returns (handled: bool)
      requires Valid() && GetScale() != 0.0
      modifies this
      ensures Valid() && (State(), handled) == ViewModel.OnTouchEvent(old(State()), scale, pinching, g, now)
    {
      if bitmap.Some? {
        if scale.Some? {
          var _ := OnScale(scale.value);
        }
        if !pinching {
          DispatchGesture(g, pinching, now);
        }
      }
      handled := true;
    }
  }
}
