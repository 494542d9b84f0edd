/**
 * Two-dimensional vectors over the reals, standing in for the engine's
 * single-precision `Vec2`, together with the engine math routines the demo
 * calls (square root behind `length`, and `from_angle`). Those routines are
 * not definable exactly in Dafny, so the model receives them as a `HostMath`
 * value and relies only on what `Sound` states about them.
 */
module Geometry {

  datatype Vec2 = Vec2(x: real, y: real)

  const Zero: Vec2 := Vec2(0.0, 0.0)

  function Add(a: Vec2, b: Vec2): Vec2 {
    Vec2(a.x + b.x, a.y + b.y)
  }

  function Sub(a: Vec2, b: Vec2): Vec2 {
    Vec2(a.x - b.x, a.y - b.y)
  }

  function Scale(v: Vec2, k: real): Vec2 {
    Vec2(v.x * k, v.y * k)
  }

  function Dot(a: Vec2, b: Vec2): real {
    a.x * b.x + a.y * b.y
  }

  /** The squared Euclidean length; never negative. */
  function LengthSq(v: Vec2): (r: real)
    ensures r >= 0.0
  {
    SquareNonNegative(v.x);
    SquareNonNegative(v.y);
    Dot(v, v)
  }

  /** Squared distance between two points. */
  function DistSq(a: Vec2, b: Vec2): (r: real)
    ensures r >= 0.0
  {
    LengthSq(Sub(a, b))
  }

  lemma SquareNonNegative(a: real)
    ensures a * a >= 0.0
  {
    if a < 0.0 {
      MulPositive(-a, -a);
      assert a * a == (-a) * (-a);
    }
  }

  lemma MulPositive(a: real, b: real)
    requires a > 0.0 && b > 0.0
    ensures a * b > 0.0
  {
  }

  /**
   * Rotation of `v` by the unit vector `rot`, i.e. complex multiplication, as
   * the engine's `Vec2::rotate` does it: the x axis leaves `v` as it is, the y
   * axis turns it a quarter to the left.
   */
  function Rotate(v: Vec2, rot: Vec2): (r: Vec2)
    ensures rot == Vec2(1.0, 0.0) ==> r == v
    ensures rot == Vec2(0.0, 1.0) ==> r == Vec2(-v.y, v.x)
  {
    Vec2(rot.x * v.x - rot.y * v.y, rot.y * v.x + rot.x * v.y)
  }

  lemma RotateLengthSq(v: Vec2, rot: Vec2)
    ensures LengthSq(Rotate(v, rot)) == LengthSq(v) * LengthSq(rot)
  {
    var a, b, c, d := rot.x, rot.y, v.x, v.y;
    calc {
      LengthSq(Rotate(v, rot));
      (a * c - b * d) * (a * c - b * d) + (b * c + a * d) * (b * c + a * d);
      a * a * c * c + b * b * d * d + b * b * c * c + a * a * d * d;
      (c * c + d * d) * (a * a + b * b);
    }
  }

  lemma ScaleLengthSq(v: Vec2, k: real)
    ensures LengthSq(Scale(v, k)) == k * k * LengthSq(v)
  {
    calc {
      LengthSq(Scale(v, k));
      (v.x * k) * (v.x * k) + (v.y * k) * (v.y * k);
      k * k * (v.x * v.x + v.y * v.y);
    }
  }

  /** Among non-negative reals, squaring preserves and reflects the order. */
  lemma CompareSquares(a: real, b: real)
    requires a >= 0.0 && b >= 0.0
    ensures a < b <==> a * a < b * b
    ensures a == b <==> a * a == b * b
  {
    assert b * b - a * a == (b - a) * (b + a);
    if a < b {
      MulPositive(b - a, b + a);
    } else if b < a {
      MulPositive(a - b, a + b);
    }
  }

  /** The engine math routines the demo calls: a square root and the unit vector of an angle. */
  datatype HostMath = HostMath(sqrt: real -> real, fromAngle: real -> Vec2)

  /**
   * What the model assumes of the host: `sqrt` is the non-negative square root
   * (with the root of 0 stated outright) and angle 0 is the x axis.
   */
  ghost predicate Sound(h: HostMath) {
    (forall x: real :: x >= 0.0 ==> h.sqrt(x) >= 0.0 && h.sqrt(x) * h.sqrt(x) == x) &&
    h.sqrt(0.0) == 0.0 &&
    h.fromAngle(0.0) == Vec2(1.0, 0.0)
  }

  /** The further assumption that `fromAngle` yields unit vectors (cosine and sine of the angle). */
  ghost predicate UnitAngles(h: HostMath) {
    forall a: real :: LengthSq(h.fromAngle(a)) == 1.0
  }

  /** `Vec2::length`: the non-negative number whose square is the squared length. */
  function Length(h: HostMath, v: Vec2): (r: real)
    requires Sound(h)
    ensures r >= 0.0 && r * r == LengthSq(v)
  {
    SqrtOf(h, LengthSq(v));
    h.sqrt(LengthSq(v))
  }

  /** The zero vector has length 0. */
  lemma ZeroLength(h: HostMath)
    requires Sound(h)
    ensures Length(h, Zero) == 0.0
  {
    assert LengthSq(Zero) == 0.0;
  }

  lemma SqrtOf(h: HostMath, x: real)
    requires Sound(h) && x >= 0.0
    ensures h.sqrt(x) >= 0.0 && h.sqrt(x) * h.sqrt(x) == x
  {
  }

  /**
   * `Vec2::normalize` of a vector whose length `len` is positive: the unit vector
   * pointing the same way. The length is passed in, as the host computes it.
   */
  function Normalize(v: Vec2, len: real): (r: Vec2)
    requires len > 0.0 && len * len == LengthSq(v)
    ensures LengthSq(r) == 1.0
    ensures r.x * v.y == r.y * v.x && Dot(r, v) > 0.0
  {
    var k := 1.0 / len;
    ScaleLengthSq(v, k);
    InverseSquare(len, k, LengthSq(v));
    assert Dot(Scale(v, k), v) == k * LengthSq(v);
    MulPositive(k, LengthSq(v));
    Scale(v, k)
  }

  lemma InverseSquare(len: real, k: real, sq: real)
    requires len > 0.0 && len * len == sq && k * len == 1.0
    ensures k * k * sq == 1.0 && k > 0.0 && sq > 0.0
  {
    calc {
      k * k * sq;
      k * k * (len * len);
      (k * len) * (k * len);
      1.0;
    }
    MulPositive(len, len);
  }

  /** A rotation by a host unit vector keeps a vector's length. */
  lemma RotateKeepsLength(h: HostMath, v: Vec2, angle: real)
    requires UnitAngles(h)
    ensures LengthSq(Rotate(v, h.fromAngle(angle))) == LengthSq(v)
  {
    var rot := h.fromAngle(angle);
    assert LengthSq(rot) == 1.0;
    RotateLengthSq(v, rot);
    MulOne(LengthSq(v), LengthSq(rot));
  }

  lemma MulOne(a: real, b: real)
    requires b == 1.0
    ensures a * b == a
  {
  }
}
