/**
 * The clamping rule of center(): on each axis, a mapped image smaller than the
 * view is centered, and a larger one is pushed back until it covers the view.
 */
module Centering {
  import Num
  import opened Matrix
  import opened Geometry

  /**
   * One axis is settled when the mapped image [lo, hi] is centered in a view
   * of size `view` (if it is smaller than the view) or covers it (if not).
   */
  predicate AxisSettled(lo: real, hi: real, view: real) {
    if hi - lo < view then lo + hi == view else lo <= 0.0 && view <= hi
  }

  /** The shift that center() applies on one axis to the mapped image [lo, hi]. */
  function AxisDelta(lo: real, hi: real, view: real): (d: real)
    ensures AxisSettled(lo + d, hi + d, view)
    ensures AxisSettled(lo, hi, view) ==> d == 0.0
    ensures hi - lo >= view && lo > 0.0 ==> lo + d == 0.0
    ensures hi - lo >= view && hi < view ==> hi + d == view
  {
    var size := hi - lo;
    if size < view then (view - size) / 2.0 - lo
    else if lo > 0.0 then -lo
    else if hi < view then view - hi
    else 0.0
  }

  /**
   * An image at least as large as the view is moved by the smallest shift that
   * settles it: it is pushed back to the nearest edge, never recentered.
   */
  lemma AxisDeltaIsLeast(lo: real, hi: real, view: real, e: real)
    requires hi - lo >= view && AxisSettled(lo + e, hi + e, view)
    ensures Num.Abs(AxisDelta(lo, hi, view)) <= Num.Abs(e)
  {
  }

  /** A second shift of an axis just settled is zero. */
  lemma AxisDeltaIdempotent(lo: real, hi: real, view: real)
    ensures var d := AxisDelta(lo, hi, view); AxisDelta(lo + d, hi + d, view) == 0.0
  {
  }

  /** The corners (0, 0) and (width, height) of the bitmap, mapped by m, are settled on the chosen axes. */
  predicate Settled(m: Affine, b: Bitmap, viewWidth: int, viewHeight: int, vertical: bool, horizontal: bool) {
    (vertical ==> AxisSettled(MapY(m, 0.0), MapY(m, b.height as real), viewHeight as real)) &&
    (horizontal ==> AxisSettled(MapX(m, 0.0), MapX(m, b.width as real), viewWidth as real))
  }

  /**
   * The translation (deltaX, deltaY) that center(vertical, horizontal, _) posts
   * when the display matrix is m.
   */
  function CenterDelta(m: Affine, b: Bitmap, viewWidth: int, viewHeight: int,
                       vertical: bool, horizontal: bool): (d: (real, real))
    ensures Settled(PostTranslate(m, d.0, d.1), b, viewWidth, viewHeight, vertical, horizontal)
    ensures !horizontal ==> d.0 == 0.0
    ensures !vertical ==> d.1 == 0.0
    ensures Settled(m, b, viewWidth, viewHeight, vertical, horizontal) ==> d == (0.0, 0.0)
    ensures horizontal ==> d.0 == AxisDelta(MapX(m, 0.0), MapX(m, b.width as real), viewWidth as real)
    ensures vertical ==> d.1 == AxisDelta(MapY(m, 0.0), MapY(m, b.height as real), viewHeight as real)
  {
    var top, left := MapY(m, 0.0), MapX(m, 0.0);
    var bottom, right := MapY(m, b.height as real), MapX(m, b.width as real);
    var deltaY := if vertical then AxisDelta(top, bottom, viewHeight as real) else 0.0;
    var deltaX := if horizontal then AxisDelta(left, right, viewWidth as real) else 0.0;
    PostTranslateMaps(m, deltaX, deltaY, 0.0, 0.0);
    PostTranslateMaps(m, deltaX, deltaY, b.width as real, b.height as real);
    (deltaX, deltaY)
  }

  /** The fit-and-center base matrix needs no centering. */
  lemma BaseMatrixSettled(b: Bitmap, viewWidth: int, viewHeight: int)
    ensures Settled(BaseMatrix(b, viewWidth, viewHeight), b, viewWidth, viewHeight, true, true)
  {
    BaseMatrixFits(b, viewWidth, viewHeight);
  }
}
