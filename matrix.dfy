/**
 * The transforms the view builds with android.graphics.Matrix. Every operation
 * the view uses (reset, setScale, setScale about a pivot, postScale about a
 * pivot, postTranslate, postConcat) keeps the matrix of the form
 *
 *     [ s 0 tx ]
 *     [ 0 s ty ]
 *     [ 0 0 1  ]
 *
 * a uniform scale followed by a translation, so a matrix is the triple (s, tx, ty).
 */
module Matrix {
  datatype Affine = Affine(s: real, tx: real, ty: real)

  /** reset(), and setScale(1, 1, px, py) for any pivot. */
  const Identity: Affine := Affine(1.0, 0.0, 0.0)

  /** mapPoints, x coordinate of the image of (x, _). */
  function MapX(m: Affine, x: real): real { m.s * x + m.tx }

  /** mapPoints, y coordinate of the image of (_, y). */
  function MapY(m: Affine, y: real): real { m.s * y + m.ty }

  /** setScale(s, s): a scale about the origin. */
  function Scaling(s: real): (r: Affine)
    ensures r.s == s && MapX(r, 0.0) == 0.0 && MapY(r, 0.0) == 0.0
  {
    Affine(s, 0.0, 0.0)
  }

  /** setScale(s, s, px, py): a scale by s that leaves the pivot (px, py) where it is. */
  function ScaleAbout(s: real, px: real, py: real): (r: Affine)
    ensures r.s == s && MapX(r, px) == px && MapY(r, py) == py
  {
    Affine(s, px - s * px, py - s * py)
  }

  /** setTranslate(dx, dy) */
  function Translation(dx: real, dy: real): Affine { Affine(1.0, dx, dy) }

  /** m.postConcat(n): the transform that applies m first and n after it. */
  function PostConcat(m: Affine, n: Affine): Affine {
    Affine(n.s * m.s, n.s * m.tx + n.tx, n.s * m.ty + n.ty)
  }

  /** m.postScale(d, d, px, py): m followed by a scale by d about (px, py). */
  function PostScale(m: Affine, d: real, px: real, py: real): (r: Affine)
    ensures r.s == d * m.s
    ensures r.tx == d * (m.tx - px) + px && r.ty == d * (m.ty - py) + py
  {
    PostConcat(m, ScaleAbout(d, px, py))
  }

  /** m.postTranslate(dx, dy): m followed by a shift by (dx, dy). */
  function PostTranslate(m: Affine, dx: real, dy: real): (r: Affine)
    ensures r.s == m.s && r.tx == m.tx + dx && r.ty == m.ty + dy
  {
    PostConcat(m, Translation(dx, dy))
  }

  /** Every point is mapped by m and then by n. */
  lemma PostConcatMaps(m: Affine, n: Affine, x: real, y: real)
    ensures MapX(PostConcat(m, n), x) == MapX(n, MapX(m, x))
    ensures MapY(PostConcat(m, n), y) == MapY(n, MapY(m, y))
  {
  }

  /** postTranslate shifts every mapped point by (dx, dy). */
  lemma PostTranslateMaps(m: Affine, dx: real, dy: real, x: real, y: real)
    ensures MapX(PostTranslate(m, dx, dy), x) == MapX(m, x) + dx
    ensures MapY(PostTranslate(m, dx, dy), y) == MapY(m, y) + dy
  {
  }

  /** A point that m sends to the pivot stays on the pivot after postScale about it. */
  lemma PostScaleKeepsPivot(m: Affine, d: real, px: real, py: real, x: real, y: real)
    requires MapX(m, x) == px && MapY(m, y) == py
    ensures MapX(PostScale(m, d, px, py), x) == px
    ensures MapY(PostScale(m, d, px, py), y) == py
  {
  }

  /** Translating the second stage of a composition translates the composition. */
  lemma PostConcatTranslate(b: Affine, m: Affine, dx: real, dy: real)
    ensures PostConcat(b, PostTranslate(m, dx, dy)) == PostTranslate(PostConcat(b, m), dx, dy)
  {
  }

  /** Composing with a scale about a pivot commutes with putting a matrix in front. */
  lemma PostConcatScale(b: Affine, m: Affine, d: real, px: real, py: real)
    ensures PostConcat(b, PostScale(m, d, px, py)) == PostScale(PostConcat(b, m), d, px, py)
  {
    var ps, bm := PostScale(m, d, px, py), PostConcat(b, m);
    var lhs, rhs := PostConcat(b, ps), PostScale(bm, d, px, py);
    assert lhs.s == rhs.s by {
      assert lhs.s == (d * m.s) * b.s && rhs.s == d * (m.s * b.s);
    }
    assert lhs.tx == rhs.tx by {
      assert lhs.tx == (d * m.s) * b.tx + (d * (m.tx - px) + px);
      assert rhs.tx == d * (m.s * b.tx + m.tx - px) + px;
    }
    assert lhs.ty == rhs.ty by {
      assert lhs.ty == (d * m.s) * b.ty + (d * (m.ty - py) + py);
      assert rhs.ty == d * (m.s * b.ty + m.ty - py) + py;
    }
  }

  /** The identity is a right unit of composition. */
  lemma PostConcatIdentity(m: Affine)
    ensures PostConcat(m, Identity) == m
  {
  }

  /** Scaling by 1 about any pivot changes nothing. */
  lemma PostScaleByOne(m: Affine, px: real, py: real)
    ensures PostScale(m, 1.0, px, py) == m
  {
  }
}
