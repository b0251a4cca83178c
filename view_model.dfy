/**
 * The state of a ZoomableImageView as one value, and every operation of the
 * view as a function from the old state (and the operation's inputs) to the
 * new one. The class in module View is proved to follow these functions.
 */
module ViewModel {
  import opened Wrappers
  import opened Num
  import opened Matrix
  import opened Geometry
  import opened Centering
  import opened Timing

  /** sScaleRate */
  const ScaleRate: real := 1.25
  /** sPaintDelay, in ms */
  const PaintDelay: int := 250
  /** the velocity onFling must exceed on one axis */
  const FlingVelocity: real := 800.0
  /** the duration onFling gives scrollBy, in ms */
  const FlingDuration: real := 300.0
  /** the duration of the double-tap zoom, in ms */
  const DoubleTapDuration: real := 200.0
  /** the double-tap zoom goes to this multiple of zoomDefault() */
  const DoubleTapFactor: real := 3.0

  datatype ViewState = ViewState(
    width: int, height: int,                // mThisWidth, mThisHeight (also getWidth(), getHeight())
    bitmap: Option<Bitmap>,                 // mBitmap
    onLayout: Option<Option<Bitmap>>,       // mOnLayoutRunnable: the setImageBitmap(bitmap) it will run
    base: Affine,                           // mBaseMatrix
    supp: Affine,                           // mSuppMatrix
    matrix: Affine,                         // mMatrix, the matrix published for drawing
    maxZoom: real,                          // mMaxZoom
    lastDraw: int,                          // mLastDraw, ms
    refresh: Option<int>,                   // the due time of the posted mRefresh, if any
    zooms: seq<ZoomTask>,                   // posted timed-zoom runnables
    flings: seq<FlingTask>,                 // posted scrollBy runnables
    fling: Option<nat>,                     // the id of the runnable mFling refers to
    nextId: nat)                            // the id of the next scrollBy runnable

  /** A freshly constructed view: not laid out, no bitmap, every matrix the identity. */
  const Initial: ViewState :=
    ViewState(-1, -1, None, None, Identity, Identity, Identity, 0.0, 0, None, [], [], None, 0)

  /**
   * What every reachable state satisfies: the view is either not laid out yet
   * or has a positive size, a bitmap is only held once the view has a size
   * (setImageBitmap defers until then) together with its positive mMaxZoom,
   * and every posted animation has a nonzero duration.
   */
  ghost predicate WellFormed(st: ViewState) {
    ((st.width == -1 && st.height == -1) || (st.width > 0 && st.height > 0)) &&
    (st.bitmap.Some? ==> st.width > 0 && st.maxZoom > 0.0) &&
    (forall z :: z in st.zooms ==> z.durationMs != 0.0) &&
    (forall f :: f in st.flings ==> f.durationMs != 0.0)
  }

  lemma InitialWellFormed()
    ensures WellFormed(Initial)
  {
  }

  /** getScale(): the scale of mSuppMatrix, or 1 without a bitmap. */
  function GetScale(st: ViewState): (r: real)
    ensures st.bitmap.None? ==> r == 1.0
    ensures st.bitmap.Some? ==> r == st.supp.s
  {
    if st.bitmap.None? then 1.0 else st.supp.s
  }

  /** getImageViewMatrix(): the base matrix followed by the supplementary one. */
  function ImageViewMatrix(st: ViewState): (r: Affine)
    ensures r.s == st.supp.s * st.base.s
  {
    Displayed((st.base, st.supp))
  }

  /**
   * The matrix a view with mBaseMatrix and mSuppMatrix equal to `mats` displays,
   * written out. ImageViewMatrixComposes shows it is their postConcat.
   */
  function Displayed(mats: (Affine, Affine)): Affine {
    var base, supp := mats.0, mats.1;
    Affine(supp.s * base.s, supp.s * base.tx + supp.tx, supp.s * base.ty + supp.ty)
  }

  /** getImageViewMatrix() composes: it is mBaseMatrix.postConcat(mSuppMatrix). */
  lemma ImageViewMatrixComposes(st: ViewState)
    ensures ImageViewMatrix(st) == PostConcat(st.base, st.supp)
  {
    var mats := (st.base, st.supp);
    assert ImageViewMatrix(st) == Displayed(mats);
    assert mats.0 == st.base && mats.1 == st.supp;
  }

  /** setImageMatrix(getImageViewMatrix()) */
  function Publish(st: ViewState): (r: ViewState)
    ensures r.matrix == ImageViewMatrix(st)
    ensures r == st.(matrix := r.matrix)
  {
    st.(matrix := ImageViewMatrix(st))
  }

  /** maxZoom() for the current bitmap and view size. */
  function ViewMaxZoom(st: ViewState): real
    requires WellFormed(st)
  {
    MaxZoom(st.bitmap, st.width, st.height)
  }

  /** zoomDefault() for the current bitmap and view size. */
  function ViewZoomDefault(st: ViewState): real {
    ZoomDefault(st.bitmap, st.width, st.height)
  }

  /** postTranslate(dx, dy): only mSuppMatrix changes; nothing is published. */
  function PostTranslateSupp(st: ViewState, dx: real, dy: real): (r: ViewState)
    ensures r.supp.s == st.supp.s
    ensures r.supp.tx == st.supp.tx + dx && r.supp.ty == st.supp.ty + dy
    ensures r == st.(supp := r.supp)
  {
    st.(supp := PostTranslate(st.supp, dx, dy))
  }

  /**
   * center(vertical, horizontal, _): shift mSuppMatrix so that the mapped
   * bitmap is settled on the chosen axes, then publish. Without a bitmap,
   * nothing happens.
   */
  function Center(st: ViewState, vertical: bool, horizontal: bool): (r: ViewState)
    ensures r.supp.s == st.supp.s
    ensures st.bitmap.None? ==> r == st
    ensures st.bitmap.Some? ==>
      r == st.(supp := r.supp, matrix := r.matrix) && r.matrix == ImageViewMatrix(r) &&
      Settled(r.matrix, st.bitmap.value, st.width, st.height, vertical, horizontal)
    ensures st.bitmap.Some? && Settled(ImageViewMatrix(st), st.bitmap.value, st.width, st.height, vertical, horizontal)
            ==> r == Publish(st)
    ensures st.bitmap.Some? ==>
      var d := CenterDelta(ImageViewMatrix(st), st.bitmap.value, st.width, st.height, vertical, horizontal);
      r.matrix == PostTranslate(ImageViewMatrix(st), d.0, d.1)
  {
    match st.bitmap
    case None => st
    case Some(b) =>
      var d := CenterDelta(ImageViewMatrix(st), b, st.width, st.height, vertical, horizontal);
      ImageViewMatrixComposes(st);
      ImageViewMatrixComposes(PostTranslateSupp(st, d.0, d.1));
      PostConcatTranslate(st.base, st.supp, d.0, d.1);
      Publish(PostTranslateSupp(st, d.0, d.1))
  }

  /**
   * zoomTo(scale, centerX, centerY): cap the scale at mMaxZoom (there is no
   * lower bound), scale mSuppMatrix about the center point to reach it,
   * publish, and center. Needs a nonzero current scale to divide by.
   */
  function ZoomTo(st: ViewState, scale: real, centerX: real, centerY: real): (r: ViewState)
    requires WellFormed(st) && GetScale(st) != 0.0
    ensures WellFormed(r)
    ensures r == st.(supp := r.supp, matrix := r.matrix)
    ensures r.matrix == ImageViewMatrix(r)
    ensures st.bitmap.Some? ==> GetScale(r) == Min(scale, st.maxZoom)
    ensures st.bitmap.Some? ==>
      var zoomed := PostScale(ImageViewMatrix(st), Min(scale, st.maxZoom) / GetScale(st), centerX, centerY);
      var d := CenterDelta(zoomed, st.bitmap.value, st.width, st.height, true, true);
      r.matrix == PostTranslate(zoomed, d.0, d.1)
  {
    var capped := Min(scale, st.maxZoom);
    var k := capped / GetScale(st);
    var moved := ScaleSupp(st, k, centerX, centerY);
    var scaled := Publish(moved);
    assert ImageViewMatrix(scaled) == ImageViewMatrix(moved) == PostScale(ImageViewMatrix(st), k, centerX, centerY);
    DivMulCancel(capped, GetScale(st));
    assert st.bitmap.Some? ==> scaled.supp.s == capped;
    Center(scaled, true, true)
  }

  /** mSuppMatrix.postScale(k, k, centerX, centerY): the display matrix is scaled about the same point. */
  function ScaleSupp(st: ViewState, k: real, centerX: real, centerY: real): (r: ViewState)
    ensures r == st.(supp := r.supp)
    ensures r.supp.s == k * st.supp.s
    ensures ImageViewMatrix(r) == PostScale(ImageViewMatrix(st), k, centerX, centerY)
  {
    ImageViewMatrixComposes(st);
    ImageViewMatrixComposes(st.(supp := PostScale(st.supp, k, centerX, centerY)));
    PostConcatScale(st.base, st.supp, k, centerX, centerY);
    st.(supp := PostScale(st.supp, k, centerX, centerY))
  }

  /** The middle of the view, getWidth() / 2f and getHeight() / 2f. */
  function MidX(st: ViewState): real {
    st.width as real / 2.0
  }

  function MidY(st: ViewState): real {
    st.height as real / 2.0
  }

  /** zoomTo(scale): zoom about the middle of the view. */
  function ZoomToViewCenter(st: ViewState, scale: real): (r: ViewState)
    requires WellFormed(st) && GetScale(st) != 0.0
    ensures WellFormed(r)
    ensures r == st.(supp := r.supp, matrix := r.matrix)
    ensures st.bitmap.Some? ==> GetScale(r) == Min(scale, st.maxZoom)
    ensures r == ZoomTo(st, scale, st.width as real / 2.0, st.height as real / 2.0)
  {
    ZoomTo(st, scale, MidX(st), MidY(st))
  }

  /**
   * zoomTo(scale, centerX, centerY, durationMs): post a runnable that walks the
   * scale linearly to `scale`. It keeps no handle, so earlier ones keep running.
   */
  function ZoomToOverTime(st: ViewState, scale: real, centerX: real, centerY: real,
                          durationMs: real, now: int): (r: ViewState)
    requires WellFormed(st) && durationMs != 0.0
    ensures WellFormed(r)
    ensures r == st.(zooms := r.zooms)
    ensures r.zooms == st.zooms + [NewZoomTask(GetScale(st), scale, centerX, centerY, durationMs, now)]
  {
    st.(zooms := st.zooms + [NewZoomTask(GetScale(st), scale, centerX, centerY, durationMs, now)])
  }

  /** The posted sequence without its element at index i. */
  function RemoveAt<T>(s: seq<T>, i: nat): (r: seq<T>)
    requires i < |s|
    ensures |r| == |s| - 1
    ensures forall k :: 0 <= k < |r| ==> r[k] == if k < i then s[k] else s[k + 1]
    ensures forall x :: x in r ==> x in s
  {
    s[..i] + s[i + 1..]
  }

  /** One run of the i-th posted timed-zoom runnable at clock reading `now`. */
  function RunZoomTask(st: ViewState, i: nat, now: int): (r: ViewState)
    requires WellFormed(st) && i < |st.zooms| && GetScale(st) != 0.0
    ensures WellFormed(r)
  {
    var t := st.zooms[i];
    var zoomed := ZoomTo(st.(zooms := RemoveAt(st.zooms, i)), ZoomTarget(t, now), t.centerX, t.centerY);
    if ZoomElapsed(t, now) < t.durationMs then zoomed.(zooms := zoomed.zooms + [t]) else zoomed
  }

  /** zoomIn(rate): scale about the middle of the view by `rate`; no cap and no centering. */
  function ZoomIn(st: ViewState, rate: real): (r: ViewState)
    ensures WellFormed(st) ==> WellFormed(r)
    ensures r == st.(supp := r.supp, matrix := r.matrix)
    ensures st.bitmap.None? ==> r == st
  {
    if st.bitmap.None? then st
    else Publish(st.(supp := PostScale(st.supp, rate, MidX(st), MidY(st))))
  }

  /**
   * zoomOut(rate): if shrinking by sScaleRate (whatever `rate` is) would take
   * the scale below 1, reset mSuppMatrix to scale 1; otherwise shrink by
   * `rate`. Then publish and center.
   */
  function ZoomOut(st: ViewState, rate: real): (r: ViewState)
    requires rate != 0.0
    ensures WellFormed(st) ==> WellFormed(r)
    ensures r == st.(supp := r.supp, matrix := r.matrix)
    ensures st.bitmap.None? ==> r == st
    ensures st.bitmap.Some? ==>
      var shrunk := st.(supp := ZoomOutSupp(st, rate));
      var d := CenterDelta(ImageViewMatrix(shrunk), st.bitmap.value, st.width, st.height, true, true);
      r.supp.s == shrunk.supp.s && r.matrix == ImageViewMatrix(r) &&
      r.matrix == PostTranslate(ImageViewMatrix(shrunk), d.0, d.1) &&
      Settled(r.matrix, st.bitmap.value, st.width, st.height, true, true)
  {
    if st.bitmap.None? then st
    else
      Center(Publish(st.(supp := ZoomOutSupp(st, rate))), true, true)
  }

  /**
   * The new mSuppMatrix of zoomOut(rate): scaled down by rate about the middle
   * of the view, unless one step at ScaleRate would take it below 1, in which
   * case it snaps to the plain scale 1 about the middle.
   */
  function ZoomOutSupp(st: ViewState, rate: real): (r: Affine)
    requires rate != 0.0
    ensures st.supp.s / ScaleRate < 1.0 ==> r == ScaleAbout(1.0, MidX(st), MidY(st))
    ensures st.supp.s / ScaleRate >= 1.0 ==>
      r.s == st.supp.s / rate &&
      r.tx - MidX(st) == (st.supp.tx - MidX(st)) / rate && r.ty - MidY(st) == (st.supp.ty - MidY(st)) / rate
  {
    var cx, cy := MidX(st), MidY(st);
    var tmp := PostScale(st.supp, 1.0 / ScaleRate, cx, cy);
    if tmp.s < 1.0 then ScaleAbout(1.0, cx, cy) else PostScale(st.supp, 1.0 / rate, cx, cy)
  }

  /**
   * The part of setImageBitmap(bitmap) before its zoomTo, once the view has a
   * width: rebuild the base matrix (the identity for no bitmap), reset
   * mSuppMatrix, publish and recompute mMaxZoom.
   */
  function ResetForBitmap(st: ViewState, bitmap: Option<Bitmap>): (r: ViewState)
    requires WellFormed(st) && st.width > 0
    ensures WellFormed(r) && GetScale(r) == 1.0
    ensures r == st.(bitmap := bitmap, base := r.base, supp := Identity, matrix := r.matrix,
                     maxZoom := MaxZoom(bitmap, st.width, st.height))
    ensures r.base == BitmapBase(bitmap, st.width, st.height)
    ensures r.matrix == ImageViewMatrix(r)
  {
    var reset := Publish(AdoptBitmap(st, bitmap).(supp := Identity));
    reset.(maxZoom := MaxZoom(bitmap, st.width, st.height))
  }

  /** The base matrix setImageBitmap(bitmap) leaves: setBaseMatrix for a bitmap, reset() for none. */
  function BitmapBase(bitmap: Option<Bitmap>, width: int, height: int): (r: Affine)
    ensures bitmap.None? ==> r == Identity
    ensures bitmap.Some? ==> r.s == BaseScale(bitmap.value, width, height)
  {
    match bitmap
    case Some(b) => BaseMatrix(b, width, height)
    case None => Identity
  }

  /** The state with mBitmap set and mBaseMatrix rebuilt for it. */
  function AdoptBitmap(st: ViewState, bitmap: Option<Bitmap>): (r: ViewState)
    ensures r.bitmap == bitmap && r.(bitmap := st.bitmap, base := st.base) == st
    ensures r.base == BitmapBase(bitmap, st.width, st.height)
  {
    st.(bitmap := bitmap, base := BitmapBase(bitmap, st.width, st.height))
  }

  /**
   * setImageBitmap(bitmap): before the view has a width, only remember the
   * call for onLayout. Otherwise reset for the bitmap and zoom to
   * zoomDefault() about the middle of the view.
   */
  function SetImageBitmap(st: ViewState, bitmap: Option<Bitmap>): (r: ViewState)
    requires WellFormed(st)
    ensures WellFormed(r)
    ensures st.width <= 0 ==> r == st.(onLayout := Some(bitmap))
    ensures st.width > 0 ==>
      r == st.(bitmap := bitmap, base := r.base, supp := r.supp, matrix := r.matrix, maxZoom := r.maxZoom)
  {
    if st.width <= 0 then st.(onLayout := Some(bitmap)) else LoadBitmap(st, bitmap)
  }

  /** setImageBitmap(bitmap) once the view has a width: the reset, then zoomTo(zoomDefault()). */
  function LoadBitmap(st: ViewState, bitmap: Option<Bitmap>): (r: ViewState)
    requires WellFormed(st) && st.width > 0
    ensures WellFormed(r)
    ensures r == st.(bitmap := bitmap, base := r.base, supp := r.supp, matrix := r.matrix, maxZoom := r.maxZoom)
  {
    var reset := ResetForBitmap(st, bitmap);
    ZoomToViewCenter(reset, ViewZoomDefault(reset))
  }

  /** setBaseMatrix followed by setImageMatrix(getImageViewMatrix()), as onLayout does. */
  function Rebase(st: ViewState): (r: ViewState)
    requires WellFormed(st)
    ensures WellFormed(r)
    ensures r == st.(base := r.base, matrix := r.matrix)
    ensures st.bitmap.None? ==> r == st
  {
    match st.bitmap
    case None => st
    case Some(b) => Publish(st.(base := BaseMatrix(b, st.width, st.height)))
  }

  /**
   * onLayout(_, left, top, right, bottom): record the new size, take the pending
   * setImageBitmap (clearing it first) and run it once, then rebuild the base
   * matrix if a bitmap is set. mSuppMatrix is left as it is.
   */
  function OnLayout(st: ViewState, left: int, top: int, right: int, bottom: int): (r: ViewState)
    requires WellFormed(st) && right - left > 0 && bottom - top > 0
    ensures WellFormed(r)
  {
    Rebase(RunPending(Resize(st, right - left, bottom - top)))
  }

  /** The pending setImageBitmap(bitmap) of onLayout, run once and dropped. */
  function RunPending(st: ViewState): (r: ViewState)
    requires WellFormed(st) && st.width > 0
    ensures WellFormed(r)
    ensures st.onLayout.None? ==> r == st
    ensures st.onLayout.Some? ==> r.onLayout.None? && r.bitmap == st.onLayout.value
  {
    match st.onLayout
    case Some(b) => SetImageBitmap(ClearPending(st), b)
    case None => st
  }

  /** The state with the frame size recorded, as onLayout does first. */
  function Resize(st: ViewState, width: int, height: int): (r: ViewState)
    requires WellFormed(st) && width > 0 && height > 0
    ensures WellFormed(r)
    ensures r == st.(width := width, height := height)
  {
    st.(width := width, height := height)
  }

  /** mOnLayoutRunnable = null */
  function ClearPending(st: ViewState): (r: ViewState)
    requires WellFormed(st)
    ensures WellFormed(r)
    ensures r == st.(onLayout := None)
  {
    st.(onLayout := None)
  }

  /** clear(): drop the bitmap; the matrices and mMaxZoom stay. */
  function Clear(st: ViewState): (r: ViewState)
    ensures WellFormed(st) ==> WellFormed(r)
    ensures r.bitmap.None? && r == st.(bitmap := r.bitmap)
  {
    st.(bitmap := None)
  }

  /** scrollBy(distanceX, distanceY, durationMs): post a new fling runnable and make it mFling. */
  function ScrollBy(st: ViewState, distanceX: real, distanceY: real, durationMs: real, now: int): (r: ViewState)
    requires WellFormed(st) && durationMs != 0.0
    ensures WellFormed(r)
    ensures r == st.(flings := r.flings, fling := Some(st.nextId), nextId := st.nextId + 1)
    ensures r.flings == st.flings + [FlingTask(st.nextId, distanceX, distanceY, durationMs, now, 0.0, 0.0)]
  {
    var t := FlingTask(st.nextId, distanceX, distanceY, durationMs, now, 0.0, 0.0);
    st.(flings := st.flings + [t], fling := Some(st.nextId), nextId := st.nextId + 1)
  }

  /** The posted flings without those with the given id. */
  function WithoutTask(fs: seq<FlingTask>, id: nat): (r: seq<FlingTask>)
    ensures forall f :: f in r ==> f in fs && f.id != id
    ensures forall f :: f in fs && f.id != id ==> f in r
    ensures forall f :: multiset(r)[f] == if f.id == id then 0 else multiset(fs)[f]
  {
    if fs == [] then []
    else
      assert fs == [fs[0]] + fs[1..];
      if fs[0].id == id then WithoutTask(fs[1..], id)
      else [fs[0]] + WithoutTask(fs[1..], id)
  }

  /** removeCallbacks(mFling): the runnable mFling refers to is no longer posted. */
  function CancelFling(st: ViewState): (r: ViewState)
    ensures WellFormed(st) ==> WellFormed(r)
    ensures r == st.(flings := r.flings)
    ensures st.fling.None? ==> r == st
  {
    match st.fling
    case None => st
    case Some(id) => st.(flings := WithoutTask(st.flings, id))
  }

  /**
   * One run of the i-th posted fling runnable at clock reading `now`: the
   * runnable leaves the queue, mSuppMatrix moves by the run's ease-out
   * increment and is centered, and the advanced runnable is re-posted while
   * its duration has not passed.
   */
  function RunFlingTask(st: ViewState, i: nat, now: int): (r: ViewState)
    requires WellFormed(st) && i < |st.flings|
    ensures WellFormed(r)
    ensures var run := FlingTick(st.flings[i], now);
            r == Center(PostTranslateSupp(st, run.moveX, run.moveY), true, true)
                   .(flings := RemoveAt(st.flings, i) + (if run.again then [run.task] else []))
  {
    var t := st.flings[i];
    var run := FlingTick(t, now);
    var shifted := PostTranslateSupp(st, run.moveX, run.moveY);
    var moved := Center(shifted.(flings := RemoveAt(st.flings, i)), true, true);
    CenterIgnoresFlings(shifted, RemoveAt(st.flings, i), true, true);
    if run.again then moved.(flings := moved.flings + [run.task]) else moved
  }

  /** center() reads and writes only the matrices, so the posted scrollBy runnables pass through it. */
  lemma CenterIgnoresFlings(st: ViewState, flings: seq<FlingTask>, vertical: bool, horizontal: bool)
    ensures Center(st.(flings := flings), vertical, horizontal) == Center(st, vertical, horizontal).(flings := flings)
  {
    assert ImageViewMatrix(st.(flings := flings)) == ImageViewMatrix(st);
  }

  /** What onDraw paints: nothing, the bitmap without the paint, or with the filtering paint. */
  datatype DrawKind = NoDraw | Unfiltered | Filtered

  /**
   * onDraw at clock reading `now`: on a hardware layer draw unfiltered; on the
   * software path draw filtered only if more than sPaintDelay ms passed since the
   * last filtered draw, and otherwise draw unfiltered and (re)post one refresh.
   */
  function OnDraw(st: ViewState, now: int, hardwareLayer: bool, recycled: bool): (r: (ViewState, DrawKind))
    ensures r.1 == NoDraw <==> st.bitmap.None? || recycled
    ensures r.1 == Filtered <==> r.1 != NoDraw && !hardwareLayer && now - st.lastDraw > PaintDelay
    ensures r.0 == st.(lastDraw := r.0.lastDraw, refresh := r.0.refresh)
    ensures r.0.lastDraw != st.lastDraw ==> r.1 == Filtered && r.0.lastDraw == now
    ensures r.0.refresh != st.refresh ==> r.1 == Unfiltered && r.0.refresh == Some(now + PaintDelay)
    ensures r.1 == Filtered ==> r.0.lastDraw == now
    ensures r.1 == Unfiltered && !hardwareLayer ==> r.0.refresh == Some(now + PaintDelay)
  {
    if st.bitmap.None? || recycled then (st, NoDraw)
    else if hardwareLayer then (st, Unfiltered)
    else if now - st.lastDraw > PaintDelay then (st.(lastDraw := now), Filtered)
    else (st.(refresh := Some(now + PaintDelay)), Unfiltered)
  }

  /** The posted mRefresh runs (its postInvalidate is not modelled). */
  function RunRefresh(st: ViewState): (r: ViewState)
    requires st.refresh.Some?
    ensures r.refresh.None?
    ensures r == st.(refresh := r.refresh)
  {
    st.(refresh := None)
  }

  /** What the scale detector reports to onScale. */
  datatype ScaleSample = ScaleSample(inProgress: bool, scaleFactor: real, focusX: real, focusY: real)

  /** What onScroll and onFling read of a MotionEvent. */
  datatype Pointer = Pointer(pointerCount: int, x: real, y: real)

  /** The callback the gesture detector makes for one event, if any. */
  datatype Gesture =
    | NoGesture
    | Scroll(e1: Option<Pointer>, e2: Option<Pointer>, distanceX: real, distanceY: real)
    | Fling(e1: Option<Pointer>, e2: Option<Pointer>, velocityX: real, velocityY: real)
    | DoubleTap(x: real, y: real)

  predicate MultiTouch(e: Option<Pointer>) {
    e.Some? && e.value.pointerCount > 1
  }

  /**
   * ScaleListener.onScale: while the pinch is in progress, zoom to the pinched
   * scale bounded below by 1 and above by maxZoom(), about the focus.
   */
  function OnScale(st: ViewState, detector: ScaleSample): (r: (ViewState, bool))
    requires WellFormed(st) && GetScale(st) != 0.0
    ensures WellFormed(r.0) && GetScale(r.0) != 0.0
    ensures r.1 == detector.inProgress
    ensures !detector.inProgress ==> r.0 == st
    ensures detector.inProgress && st.bitmap.Some? ==>
      GetScale(r.0) == Min(PinchTarget(st, detector), st.maxZoom)
    ensures detector.inProgress ==>
      r.0 == ZoomTo(st, PinchTarget(st, detector), detector.focusX, detector.focusY)
  {
    if !detector.inProgress then (st, false)
    else (ZoomTo(st, PinchTarget(st, detector), detector.focusX, detector.focusY), true)
  }

  /** The scale a pinch asks for: the pinched scale, at least 1 and at most maxZoom(). */
  function PinchTarget(st: ViewState, detector: ScaleSample): (r: real)
    requires WellFormed(st)
    ensures r <= ViewMaxZoom(st)
    ensures r <= Max(GetScale(st) * detector.scaleFactor, 1.0)
    ensures r == ViewMaxZoom(st) || r == Max(GetScale(st) * detector.scaleFactor, 1.0)
  {
    Min(ViewMaxZoom(st), Max(GetScale(st) * detector.scaleFactor, 1.0))
  }

  /**
   * onScroll: ignored with more than one pointer or while pinching; otherwise,
   * when zoomed past zoomDefault(), cancel mFling, pan by (-dx, -dy) and center.
   */
  function OnScroll(st: ViewState, e1: Option<Pointer>, e2: Option<Pointer>, pinching: bool,
                    distanceX: real, distanceY: real): (r: (ViewState, bool))
    requires WellFormed(st)
    ensures WellFormed(r.0)
    ensures r.1 <==> !(MultiTouch(e1) || MultiTouch(e2) || pinching)
  {
    if MultiTouch(e1) || MultiTouch(e2) || pinching then (st, false)
    else if GetScale(st) > ViewZoomDefault(st) then (Pan(st, distanceX, distanceY), true)
    else (st, true)
  }

  /** The zoomed-in branch of onScroll: cancel mFling, pan by (-dx, -dy) and center. */
  function Pan(st: ViewState, distanceX: real, distanceY: real): (r: ViewState)
    requires WellFormed(st)
    ensures WellFormed(r)
  {
    Center(PostTranslateSupp(CancelFling(st), -distanceX, -distanceY), true, true)
  }

  /**
   * onDoubleTap: zoomed past zoomDefault(), go back to it at once; otherwise
   * zoom to three times it about the tap over 200 ms.
   */
  function OnDoubleTap(st: ViewState, x: real, y: real, now: int): (r: (ViewState, bool))
    requires WellFormed(st) && GetScale(st) != 0.0
    ensures WellFormed(r.0) && r.1
  {
    if GetScale(st) > ViewZoomDefault(st) then (ZoomToViewCenter(st, ViewZoomDefault(st)), true)
    else (ZoomToOverTime(st, ViewZoomDefault(st) * DoubleTapFactor, x, y, DoubleTapDuration, now), true)
  }

  /**
   * onFling: ignored with more than one pointer, while pinching, or when an
   * event is missing (the NullPointerException is swallowed); a fast enough
   * fling scrolls by half the distance between the events over 300 ms. It
   * returns what SimpleOnGestureListener.onFling returns: false.
   */
  function OnFling(st: ViewState, e1: Option<Pointer>, e2: Option<Pointer>, velocityX: real,
                   velocityY: real, pinching: bool, now: int): (r: (ViewState, bool))
    requires WellFormed(st)
    ensures WellFormed(r.0) && !r.1
  {
    if MultiTouch(e1) || MultiTouch(e2) then (st, false)
    else if pinching then (st, false)
    else if e1.None? || e2.None? then (st, false)
    else if Abs(velocityX) > FlingVelocity || Abs(velocityY) > FlingVelocity then
      var diffX := e2.value.x - e1.value.x;
      var diffY := e2.value.y - e1.value.y;
      (ScrollBy(st, diffX / 2.0, diffY / 2.0, FlingDuration, now), false)
    else (st, false)
  }

  /** The gesture detector delivering its callback, with the scale detector's state `pinching`. */
  function DispatchGesture(st: ViewState, g: Gesture, pinching: bool, now: int): (r: ViewState)
    requires WellFormed(st) && GetScale(st) != 0.0
    ensures WellFormed(r)
    ensures g.NoGesture? ==> r == st
    ensures g.Scroll? ==> r == OnScroll(st, g.e1, g.e2, pinching, g.distanceX, g.distanceY).0
    ensures g.Fling? ==> r == OnFling(st, g.e1, g.e2, g.velocityX, g.velocityY, pinching, now).0
    ensures g.DoubleTap? ==> r == OnDoubleTap(st, g.x, g.y, now).0
  {
    match g
    case NoGesture => st
    case Scroll(e1, e2, dx, dy) => OnScroll(st, e1, e2, pinching, dx, dy).0
    case Fling(e1, e2, vx, vy) => OnFling(st, e1, e2, vx, vy, pinching, now).0
    case DoubleTap(x, y) => OnDoubleTap(st, x, y, now).0
  }

  /**
   * onTouchEvent: with a bitmap, the event goes to the scale detector (which
   * may call onScale), and to the gesture detector only if no pinch is then in
   * progress. The event is always consumed.
   */
  function OnTouchEvent(st: ViewState, scale: Option<ScaleSample>, pinching: bool, g: Gesture,
                        now: int): (r: (ViewState, bool))
    requires WellFormed(st) && GetScale(st) != 0.0
    ensures WellFormed(r.0) && r.1
  {
    if st.bitmap.None? then (st, true)
    else
      var scaled := if scale.Some? then OnScale(st, scale.value).0 else st;
      var after := if pinching then scaled else DispatchGesture(scaled, g, pinching, now);
      (after, true)
  }

  /**
   * onSingleTapConfirmed: notifies the listener when there is one; it reports
   * the tap as not handled either way. Result: (handled, listener notified).
   */
  function OnSingleTapConfirmed(hasListener: bool): (r: (bool, bool))
    ensures !r.0 && r.1 == hasListener
  {
    if hasListener then (false, true) else (false, false)
  }
}
