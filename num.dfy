/** Float helpers of java.lang.Math, over exact reals. */
module Num {
  /** Math.min(a, b) */
  function Min(a: real, b: real): (r: real)
    ensures r <= a && r <= b
    ensures r == a || r == b
  {
    if a <= b then a else b
  }

  /** Math.max(a, b) */
  function Max(a: real, b: real): (r: real)
    ensures r >= a && r >= b
    ensures r == a || r == b
  {
    if a >= b then a else b
  }

  /** Math.abs(x) */
  function Abs(x: real): (r: real)
    ensures r >= 0.0
    ensures r == x || r == -x
  {
    if x < 0.0 then -x else x
  }

  /** Multiplying by a non-negative factor keeps the order. */
  lemma MulMonotone(a: real, x: real, y: real)
    requires a >= 0.0 && x <= y
    ensures a * x <= a * y
  {
  }

  /** A factor at most v / b scales b to at most v. */
  lemma BelowQuotient(x: real, v: real, b: real)
    requires b > 0.0 && x <= v / b
    ensures x * b <= v
  {
    MulMonotone(b, x, v / b);
    assert b * (v / b) == v;
  }

  /** Dividing by y and multiplying back by it gives x again. */
  lemma DivMulCancel(x: real, y: real)
    requires y != 0.0
    ensures (x / y) * y == x
  {
  }
}
