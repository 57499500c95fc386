/** Geometry primitives and the numeric conversions the layout relies on.
    CGFloat is modelled as `real`. */
module Geometry {

  datatype Size = Size(width: real, height: real)

  /** A CGRect with non-standardised origin and size. */
  datatype Rect = Rect(x: real, y: real, width: real, height: real) {
    function MaxY(): real { y + height }
  }

  function Min(a: real, b: real): real { if a <= b then a else b }
  function Max(a: real, b: real): real { if a >= b then a else b }
  function MinInt(a: int, b: int): int { if a <= b then a else b }
  function MaxInt(a: int, b: int): int { if a >= b then a else b }
  function Abs(a: int): nat { if a < 0 then -a else a }

  /** Swift's `Int(x)` for a finite CGFloat: truncation toward zero. */
  function Trunc(x: real): (r: int)
    ensures x >= 0.0 ==> r >= 0 && r as real <= x < r as real + 1.0
    ensures x < 0.0 ==> r <= 0 && r as real - 1.0 < x <= r as real
  {
    if x >= 0.0 then x.Floor else -((-x).Floor)
  }

  /** CGFloat's `truncatingRemainder(dividingBy:)`: the remainder of the
      division whose quotient is truncated toward zero. */
  function TruncatingRemainder(x: real, d: real): (r: real)
    requires d > 0.0
    ensures x >= 0.0 ==> 0.0 <= r < d
    ensures x == Trunc(x / d) as real * d + r
  {
    var q := Trunc(x / d);
    TruncQuotientBounds(x, d);
    x - q as real * d
  }

  lemma TruncQuotientBounds(x: real, d: real)
    requires d > 0.0
    ensures x >= 0.0 ==> Trunc(x / d) as real * d <= x < Trunc(x / d) as real * d + d
  {
    if x >= 0.0 {
      var y := x / d;
      assert y * d == x;
      if y < 0.0 {
        MulPositive(-y, d);
      }
      ScaledFloorBounds(x, d, y, Trunc(y) as real);
    }
  }

  lemma ScaledFloorBounds(x: real, d: real, y: real, q: real)
    requires d > 0.0 && y * d == x && q <= y < q + 1.0
    ensures q * d <= x < q * d + d
  {
    var low := y - q;
    var high := (q + 1.0) - y;
    MulNonNegative(low, d);
    Distribute(y, q, d);
    MulPositive(high, d);
    Distribute(q + 1.0, y, d);
    Distribute(q, 1.0, d);
    Between(x, q * d, d, low * d, high * d, (q + 1.0) * d);
  }

  /** The linear core of ScaledFloorBounds, with each product as an atom. */
  lemma Between(x: real, qd: real, d: real, below: real, above: real, next: real)
    requires below >= 0.0 && below == x - qd
    requires above > 0.0 && above == next - x && next == qd + d
    ensures qd <= x < qd + d
  {
  }

  lemma Distribute(a: real, b: real, d: real)
    ensures (a - b) * d == a * d - b * d
    ensures (a + b) * d == a * d + b * d
  {
  }

  lemma DivMul(x: real, d: real)
    requires d != 0.0
    ensures (x / d) * d == x
  {
  }

  lemma MulNonNegative(a: real, b: real)
    requires a >= 0.0 && b >= 0.0
    ensures a * b >= 0.0
  {
  }

  lemma MulPositive(a: real, b: real)
    requires a > 0.0 && b > 0.0
    ensures a * b > 0.0
  {
  }

  lemma DivNonNegative(x: real, d: real)
    requires x >= 0.0 && d > 0.0
    ensures x / d >= 0.0
  {
    var y := x / d;
    DivMul(x, d);
    if y < 0.0 {
      MulPositive(-y, d);
    }
  }

  lemma MulMonotoneLeft(a: real, b: real, d: real)
    requires a <= b && d >= 0.0
    ensures a * d <= b * d
  {
    MulNonNegative(b - a, d);
    Distribute(b, a, d);
  }

  lemma DivMonotone(a: real, b: real, d: real)
    requires a <= b && d > 0.0
    ensures a / d <= b / d
  {
    var x := a / d;
    var y := b / d;
    DivMul(a, d);
    DivMul(b, d);
    if x > y {
      MulPositive(x - y, d);
      Distribute(x, y, d);
    }
  }

  lemma DivPositive(a: real, d: real)
    requires a > 0.0 && d > 0.0
    ensures a / d > 0.0
  {
    var x := a / d;
    DivMul(a, d);
    if x <= 0.0 {
      MulNonNegative(-x, d);
    }
  }

  /** Dividing a multiple of `d` by `d` gives the factor back. */
  lemma MulDivCancel(m: real, d: real)
    requires d != 0.0
    ensures (m * d) / d == m
  {
    var y := (m * d) / d;
    DivMul(m * d, d);
    Distribute(y, m, d);
    ZeroFactor(y - m, d);
  }

  /** A product with a non-zero factor vanishes only when the other one
      does. */
  lemma ZeroFactor(a: real, d: real)
    requires d != 0.0 && a * d == 0.0
    ensures a == 0.0
  {
    var e := if d > 0.0 then d else -d;
    var b := if a > 0.0 then a else -a;
    PositiveProduct(b, e);
    assert b * e == a * d || b * e == -(a * d);
  }

  lemma PositiveProduct(a: real, b: real)
    ensures a > 0.0 && b > 0.0 ==> a * b > 0.0
  {
  }

  lemma NonNegativeProduct(a: real, b: real)
    ensures a >= 0.0 && b >= 0.0 ==> a * b >= 0.0
  {
  }

  function RealAbs(a: real): real { if a < 0.0 then -a else a }

  /** `rint`: rounding to the nearest integer, ties to even (the default
      IEEE rounding mode). */
  function RoundHalfEven(x: real): (r: int)
    ensures x - 0.5 <= r as real <= x + 0.5
    ensures r as real - x == 0.5 || x - r as real == 0.5 ==> r % 2 == 0
  {
    var f := x.Floor;
    var frac := x - f as real;
    if frac < 0.5 then f
    else if frac > 0.5 then f + 1
    else if f % 2 == 0 then f
    else f + 1
  }

  /** The low and high ends of a rectangle's extent `len` from `origin` on
      one axis; Core Graphics standardizes a negative size by flipping it. */
  function Low(origin: real, len: real): real {
    if len >= 0.0 then origin else origin + len
  }

  function High(origin: real, len: real): real {
    if len >= 0.0 then origin + len else origin
  }

  /** CGRect.intersects: after standardizing both rectangles, they overlap
      in an area of positive extent on both axes. The layout passes a
      content rectangle of negative height when the content is pulled down
      by more than a frame height (`offsetY < -frameHeight`); it then spans
      from `2 * offsetY + frameHeight` down to `offsetY`. */
  predicate Intersects(a: Rect, b: Rect) {
    && Low(a.x, a.width) < High(b.x, b.width) && Low(b.x, b.width) < High(a.x, a.width)
    && Low(a.y, a.height) < High(b.y, b.height) && Low(b.y, b.height) < High(a.y, a.height)
  }

  /** For rectangles of non-negative size the test is the plain comparison
      of edges, and for a rectangle of negative height it is the comparison
      against the flipped extent. */
  lemma IntersectsStandardizes(a: Rect, b: Rect)
    requires a.width >= 0.0 && b.width >= 0.0 && b.height >= 0.0
    ensures a.height >= 0.0 ==>
      (Intersects(a, b) <==>
        && a.x < b.x + b.width && b.x < a.x + a.width
        && a.y < b.y + b.height && b.y < a.y + a.height)
    ensures a.height < 0.0 ==>
      (Intersects(a, b) <==>
        && a.x < b.x + b.width && b.x < a.x + a.width
        && a.y + a.height < b.y + b.height && b.y < a.y)
  {
  }
}
