/**
 * The fit-and-center base matrix and the two zoom bounds, as the view computes
 * them from the bitmap's size and the view's size.
 */
module Geometry {
  import opened Wrappers
  import opened Num
  import opened Matrix

  /** Android bitmaps have a positive width and height. */
  type Pixels = n: int | n > 0 witness 1

  /** The only thing the engine reads of a bitmap is its size. */
  datatype Bitmap = Bitmap(width: Pixels, height: Pixels)

  /** maxZoom() allows 16 times the larger of the bitmap/view ratios. */
  const MaxZoomFactor: real := 16.0

  /**
   * The scale setBaseMatrix picks: min(1, viewWidth / width, viewHeight / height),
   * the largest scale, up to 1, at which the bitmap fits the view.
   */
  function BaseScale(b: Bitmap, viewWidth: int, viewHeight: int): real {
    var widthScale := Min(viewWidth as real / b.width as real, 1.0);
    var heightScale := Min(viewHeight as real / b.height as real, 1.0);
    if widthScale > heightScale then heightScale else widthScale
  }

  /** The base scale is min(1, vw / bw, vh / bh): a lower bound of the three that is one of them. */
  lemma BaseScaleIsMin(b: Bitmap, viewWidth: int, viewHeight: int)
    ensures var r := BaseScale(b, viewWidth, viewHeight);
      var vw, vh := viewWidth as real, viewHeight as real;
      var bw, bh := b.width as real, b.height as real;
      r <= 1.0 && r <= vw / bw && r <= vh / bh &&
      (r == 1.0 || r == vw / bw || r == vh / bh)
  {
  }

  /** setBaseMatrix: scale the bitmap by BaseScale, then center it. */
  function BaseMatrix(b: Bitmap, viewWidth: int, viewHeight: int): Affine {
    var vw, vh := viewWidth as real, viewHeight as real;
    var bw, bh := b.width as real, b.height as real;
    var scale := BaseScale(b, viewWidth, viewHeight);
    PostTranslate(Scaling(scale), (vw - bw * scale) / 2.0, (vh - bh * scale) / 2.0)
  }

  /**
   * The scaled bitmap fits the view, and the margins on the two sides of each
   * axis are equal.
   */
  lemma BaseMatrixFits(b: Bitmap, viewWidth: int, viewHeight: int)
    ensures var r := BaseMatrix(b, viewWidth, viewHeight);
      var vw, vh := viewWidth as real, viewHeight as real;
      var bw, bh := b.width as real, b.height as real;
      r.s == BaseScale(b, viewWidth, viewHeight) &&
      r.s * bw <= vw && r.s * bh <= vh &&
      MapX(r, 0.0) + MapX(r, bw) == vw && MapY(r, 0.0) + MapY(r, bh) == vh
  {
    var vw, vh := viewWidth as real, viewHeight as real;
    var bw, bh := b.width as real, b.height as real;
    var scale := BaseScale(b, viewWidth, viewHeight);
    BaseScaleIsMin(b, viewWidth, viewHeight);
    assert BaseMatrix(b, viewWidth, viewHeight) == Affine(scale, (vw - bw * scale) / 2.0, (vh - bh * scale) / 2.0);
    BelowQuotient(scale, vw, bw);
    BelowQuotient(scale, vh, bh);
  }

  /** maxZoom(): 1 without a bitmap, otherwise 16 times the larger bitmap/view ratio. */
  function MaxZoom(bitmap: Option<Bitmap>, viewWidth: int, viewHeight: int): (r: real)
    requires bitmap.Some? ==> viewWidth > 0 && viewHeight > 0
    ensures bitmap.None? ==> r == 1.0
    ensures r > 0.0
  {
    match bitmap
    case None => 1.0
    case Some(b) =>
      var fw := b.width as real / viewWidth as real;
      var fh := b.height as real / viewHeight as real;
      Max(fw, fh) * MaxZoomFactor
  }

  /** With a bitmap, maxZoom() is the larger of 16 * width / viewWidth and 16 * height / viewHeight. */
  lemma MaxZoomIsLargerRatio(b: Bitmap, viewWidth: int, viewHeight: int)
    requires viewWidth > 0 && viewHeight > 0
    ensures var r := MaxZoom(Some(b), viewWidth, viewHeight);
      var fw := b.width as real / viewWidth as real;
      var fh := b.height as real / viewHeight as real;
      r >= MaxZoomFactor * fw && r >= MaxZoomFactor * fh &&
      (r == MaxZoomFactor * fw || r == MaxZoomFactor * fh)
  {
  }

  /**
   * zoomDefault(): the user-matrix scale at rest. It is the fit ratio of view
   * to bitmap, but never below 1 (the base matrix already shrinks large bitmaps).
   */
  function ZoomDefault(bitmap: Option<Bitmap>, viewWidth: int, viewHeight: int): (r: real)
    ensures r >= 1.0
    ensures bitmap.None? ==> r == 1.0
  {
    match bitmap
    case None => 1.0
    case Some(b) =>
      var fw := viewWidth as real / b.width as real;
      var fh := viewHeight as real / b.height as real;
      Max(Min(fw, fh), 1.0)
  }

  /** With a bitmap, zoomDefault() is the smaller view/bitmap ratio when that exceeds 1, and 1 otherwise. */
  lemma ZoomDefaultIsFitOrOne(b: Bitmap, viewWidth: int, viewHeight: int)
    ensures var r := ZoomDefault(Some(b), viewWidth, viewHeight);
      var fit := Min(viewWidth as real / b.width as real, viewHeight as real / b.height as real);
      r >= fit && (r > 1.0 ==> r == fit) && (fit <= 1.0 ==> r == 1.0)
  {
  }

  /**
   * The cap maxZoom() lies at or above zoomDefault() exactly when the larger
   * bitmap/view ratio is at least 1/4. For a bitmap smaller than that, the
   * initial zoomTo(zoomDefault()) of setImageBitmap is cut down to maxZoom().
   */
  lemma MaxZoomCoversDefault(b: Bitmap, viewWidth: int, viewHeight: int)
    requires viewWidth > 0 && viewHeight > 0
    ensures MaxZoom(Some(b), viewWidth, viewHeight) >= ZoomDefault(Some(b), viewWidth, viewHeight)
            <==> Max(b.width as real / viewWidth as real, b.height as real / viewHeight as real) >= 0.25
  {
    var vw, vh := viewWidth as real, viewHeight as real;
    var bw, bh := b.width as real, b.height as real;
    var m := Max(bw / vw, bh / vh);
    assert vw / bw == 1.0 / (bw / vw);
    assert vh / bh == 1.0 / (bh / vh);
    InverseOfMax(bw / vw, bh / vh);
    assert Min(vw / bw, vh / bh) == 1.0 / m;
    assert MaxZoom(Some(b), viewWidth, viewHeight) == 16.0 * m;
    assert ZoomDefault(Some(b), viewWidth, viewHeight) == Max(1.0 / m, 1.0);
    if m >= 0.25 {
      assert 16.0 * m * m >= 1.0 by { assert m * m >= 0.25 * m >= 0.0625; }
      assert 16.0 * m >= 1.0 / m by { assert (1.0 / m) * m == 1.0; }
    } else {
      assert 1.0 / m > 4.0 by { assert (1.0 / m) * m == 1.0; }
    }
  }

  /** The reciprocal of the larger of two positive numbers is the smaller reciprocal. */
  lemma InverseOfMax(a: real, c: real)
    requires a > 0.0 && c > 0.0
    ensures Min(1.0 / a, 1.0 / c) == 1.0 / Max(a, c)
  {
    if a <= c {
      ReciprocalAntitone(a, c);
    } else {
      ReciprocalAntitone(c, a);
    }
  }

  /** Taking reciprocals reverses the order of positive numbers. */
  lemma ReciprocalAntitone(a: real, c: real)
    requires 0.0 < a <= c
    ensures 1.0 / c <= 1.0 / a
  {
    var x, y := 1.0 / a, 1.0 / c;
    assert x * a == 1.0 && y * c == 1.0;
    assert y * a <= y * c;
  }

  /** A 10x10 bitmap in a 100x100 view: maxZoom() is 1.6, below zoomDefault() of 10. */
  lemma SmallBitmapCapsDefault()
    ensures MaxZoom(Some(Bitmap(10, 10)), 100, 100) == 1.6
    ensures ZoomDefault(Some(Bitmap(10, 10)), 100, 100) == 10.0
  {
  }
}
