/**
 * The per-frame steering and motion update of the car (`sprite_movement`):
 * steer if a key is held, add `direction * baseAcc` to the velocity, cap the
 * speed at `topSpeed` by rescaling, then add the velocity to the position.
 * Integration is per frame tick; elapsed time does not enter.
 */
module Motion {
  import opened Geometry
  import opened Entities

  /** Non-negative reals with equal squares are equal. */
  lemma RootUnique(a: real, b: real)
    requires a >= 0.0 && b >= 0.0 && a * a == b * b
    ensures a == b
  {
    CompareSquares(a, b);
  }

  /** A vector at rest has length 0. */
  lemma AtRest(h: HostMath, v: Vec2)
    requires Sound(h)
    ensures v == Zero ==> Length(h, v) == 0.0
  {
    if v == Zero {
      ZeroLength(h);
    }
  }

  /**
   * The facing direction after the keys are read: left (A) rotates by
   * 0.001 * speed radians, otherwise right (D) by the negated angle,
   * otherwise the direction is kept. Left wins when both are held.
   */
  function Steer(c: CarState, left: bool, right: bool, h: HostMath): (d: Vec2)
    requires Sound(h)
    ensures !left && !right ==> d == c.direction
    ensures c.vel == Zero ==> d == c.direction
  {
    var speed := Length(h, c.vel);
    AtRest(h, c.vel);
    if left then Rotate(c.direction, h.fromAngle(0.001 * speed))
    else if right then Rotate(c.direction, h.fromAngle(-0.001 * speed))
    else c.direction
  }

  /** Steering only turns the direction: its length is kept when `fromAngle` yields unit vectors. */
  lemma SteerKeepsLength(c: CarState, left: bool, right: bool, h: HostMath)
    requires Sound(h) && UnitAngles(h)
    ensures LengthSq(Steer(c, left, right, h)) == LengthSq(c.direction)
  {
    var speed := Length(h, c.vel);
    RotateKeepsLength(h, c.direction, 0.001 * speed);
    RotateKeepsLength(h, c.direction, -0.001 * speed);
  }

  /** The steering angle is proportional to the speed `s`: 0.001 * s to the left, -0.001 * s to the right. */
  lemma SteerProportional(c: CarState, left: bool, right: bool, h: HostMath, s: real)
    requires Sound(h) && s >= 0.0 && LengthSq(c.vel) == s * s
    ensures left ==> Steer(c, left, right, h) == Rotate(c.direction, h.fromAngle(0.001 * s))
    ensures !left && right ==> Steer(c, left, right, h) == Rotate(c.direction, h.fromAngle(-0.001 * s))
  {
    RootUnique(Length(h, c.vel), s);
  }

  /**
   * The speed cap: a vector longer than `top` is normalized and scaled to
   * `top`; a vector no longer than `top` is kept.
   */
  function Clamp(v: Vec2, top: real, h: HostMath): (r: Vec2)
    requires Sound(h) && top >= 0.0
    ensures LengthSq(r) <= top * top
    ensures LengthSq(v) <= top * top ==> r == v
    ensures LengthSq(v) > top * top ==> LengthSq(r) == top * top && r.x * v.y == r.y * v.x
    ensures LengthSq(v) > top * top && top > 0.0 ==> Dot(r, v) > 0.0
  {
    var len := Length(h, v);
    CompareSquares(len, top);
    if len > top then
      var n := Normalize(v, len);
      ScaledUnit(n, v, top);
      Scale(n, top)
    else
      v
  }

  /** Scaling a unit vector parallel to `v` by `top` gives length `top`, still parallel to `v`. */
  lemma ScaledUnit(n: Vec2, v: Vec2, top: real)
    requires LengthSq(n) == 1.0 && n.x * v.y == n.y * v.x && Dot(n, v) > 0.0 && top >= 0.0
    ensures LengthSq(Scale(n, top)) == top * top
    ensures Scale(n, top).x * v.y == Scale(n, top).y * v.x
    ensures top > 0.0 ==> Dot(Scale(n, top), v) > 0.0
  {
    ScaledLength(n, top);
    ScaledParallel(n, v, top);
    ScaledSameWay(n, v, top);
  }

  lemma ScaledLength(n: Vec2, top: real)
    requires LengthSq(n) == 1.0
    ensures LengthSq(Scale(n, top)) == top * top
  {
    ScaleLengthSq(n, top);
  }

  lemma ScaledParallel(n: Vec2, v: Vec2, top: real)
    requires n.x * v.y == n.y * v.x
    ensures Scale(n, top).x * v.y == Scale(n, top).y * v.x
  {
    assert Scale(n, top).x * v.y == top * (n.x * v.y);
    assert Scale(n, top).y * v.x == top * (n.y * v.x);
  }

  lemma ScaledSameWay(n: Vec2, v: Vec2, top: real)
    requires Dot(n, v) > 0.0
    ensures top > 0.0 ==> Dot(Scale(n, top), v) > 0.0
  {
    assert Dot(Scale(n, top), v) == top * Dot(n, v);
    if top > 0.0 {
      MulPositive(top, Dot(n, v));
    }
  }

  /** One frame of `sprite_movement` on the car's state. */
  function Move(c: CarState, left: bool, right: bool, h: HostMath): (r: CarState)
    requires Sound(h) && c.topSpeed >= 0.0
    ensures r.baseAcc == c.baseAcc && r.topSpeed == c.topSpeed
    ensures r.direction == Steer(c, left, right, h)
    ensures !left && !right ==> r.direction == c.direction
    ensures LengthSq(r.vel) <= c.topSpeed * c.topSpeed
    ensures var sum := Add(c.vel, Scale(r.direction, c.baseAcc));
      LengthSq(sum) <= c.topSpeed * c.topSpeed ==> r.vel == sum
    ensures r.pos == Add(c.pos, r.vel)
  {
    var direction := Steer(c, left, right, h);
    var vel := Clamp(Add(c.vel, Scale(direction, c.baseAcc)), c.topSpeed, h);
    CarState(Add(c.pos, vel), vel, direction, c.baseAcc, c.topSpeed)
  }

  /** `n` frames with no steering key held. */
  function Run(c: CarState, n: nat, h: HostMath): (r: CarState)
    requires Sound(h) && c.topSpeed >= 0.0
    ensures r.direction == c.direction && r.baseAcc == c.baseAcc && r.topSpeed == c.topSpeed
  {
    if n == 0 then c else Move(Run(c, n - 1, h), false, false, h)
  }

  /** The speed after `n` frames from rest: one more per frame, capped at 40. */
  function Speed(n: nat): real {
    if n <= 40 then n as real else 40.0
  }

  /** The distance covered in `n` frames from rest. */
  function Travelled(n: nat): real {
    if n == 0 then 0.0 else Travelled(n - 1) + Speed(n)
  }

  /** A vector along +y of size `s` has length `s`. */
  lemma LengthAlongY(h: HostMath, s: real)
    requires Sound(h) && s >= 0.0
    ensures Length(h, Vec2(0.0, s)) == s
  {
    assert LengthSq(Vec2(0.0, s)) == s * s;
    CompareSquares(Length(h, Vec2(0.0, s)), s);
  }

  /** The cap on a vector along +y keeps it if it is at most `top` long and shortens it to `top` otherwise. */
  lemma ClampAlongY(h: HostMath, s: real, top: real)
    requires Sound(h) && s >= 0.0 && top >= 0.0
    ensures Clamp(Vec2(0.0, s), top, h) == Vec2(0.0, if s <= top then s else top)
  {
    if s > top {
      ClampLongY(h, s, top);
    } else {
      ClampShortY(h, s, top);
    }
  }

  lemma ClampShortY(h: HostMath, s: real, top: real)
    requires Sound(h) && 0.0 <= s <= top
    ensures Clamp(Vec2(0.0, s), top, h) == Vec2(0.0, s)
  {
    LengthAlongY(h, s);
  }

  lemma ClampLongY(h: HostMath, s: real, top: real)
    requires Sound(h) && 0.0 <= top < s
    ensures Clamp(Vec2(0.0, s), top, h) == Vec2(0.0, top)
  {
    LengthAlongY(h, s);
    NormalizeAlongY(s);
    ClampOver(Vec2(0.0, s), top, h, s);
    ScaleUnitY(top);
  }

  /** At or below the cap, `Clamp` keeps the vector. */
  lemma ClampUnder(v: Vec2, top: real, h: HostMath, len: real)
    requires Sound(h) && 0.0 <= top && len == Length(h, v) && len <= top
    ensures Clamp(v, top, h) == v
  {
  }

  /** Above the cap, `Clamp` is the normalized vector scaled to `top`. */
  lemma ClampOver(v: Vec2, top: real, h: HostMath, len: real)
    requires Sound(h) && 0.0 <= top < len && len == Length(h, v)
    ensures len * len == LengthSq(v)
    ensures Clamp(v, top, h) == Scale(Normalize(v, len), top)
  {
  }

  lemma ScaleUnitY(k: real)
    ensures Scale(Vec2(0.0, 1.0), k) == Vec2(0.0, k)
  {
  }

  lemma NormalizeAlongY(s: real)
    requires s > 0.0
    ensures s * s == LengthSq(Vec2(0.0, s))
    ensures Normalize(Vec2(0.0, s), s) == Vec2(0.0, 1.0)
  {
    assert LengthSq(Vec2(0.0, s)) == s * s;
  }

  /** One straight frame at speed `v` along +y from x = 100, with the initial constants. */
  lemma StraightFrame(y: real, v: real, h: HostMath)
    requires Sound(h) && 0.0 <= v <= 40.0
    ensures var c := CarState(Vec2(100.0, y), Vec2(0.0, v), Vec2(0.0, 1.0), 1.0, 40.0);
      var w := if v + 1.0 <= 40.0 then v + 1.0 else 40.0;
      Move(c, false, false, h) == CarState(Vec2(100.0, y + w), Vec2(0.0, w), Vec2(0.0, 1.0), 1.0, 40.0)
  {
    var c := CarState(Vec2(100.0, y), Vec2(0.0, v), Vec2(0.0, 1.0), 1.0, 40.0);
    var w := if v + 1.0 <= 40.0 then v + 1.0 else 40.0;
    assert Steer(c, false, false, h) == c.direction;
    assert Add(c.vel, Scale(c.direction, c.baseAcc)) == Vec2(0.0, v + 1.0);
    ClampAlongY(h, v + 1.0, 40.0);
    assert Clamp(Vec2(0.0, v + 1.0), 40.0, h) == Vec2(0.0, w);
    assert Move(c, false, false, h) == CarState(Add(c.pos, Vec2(0.0, w)), Vec2(0.0, w), c.direction, 1.0, 40.0);
  }

  /**
   * From the initial car, with no key held, after `n` frames the car has
   * moved straight up: x stays 100, the velocity is (0, min(n, 40)) and the
   * direction stays (0, 1).
   */
  lemma {:induction false} StraightRun(n: nat, h: HostMath)
    requires Sound(h)
    ensures Run(InitialCar(), n, h) == CarState(Vec2(100.0, Travelled(n)), Vec2(0.0, Speed(n)), Vec2(0.0, 1.0), 1.0, 40.0)
  {
    if n > 0 {
      StraightRun(n - 1, h);
      StraightFrame(Travelled(n - 1), Speed(n - 1), h);
    }
  }

  /** With no key held from the initial car, the y position strictly increases every frame. */
  lemma StraightRunAdvances(n: nat, h: HostMath)
    requires Sound(h)
    ensures Run(InitialCar(), n + 1, h).pos.y > Run(InitialCar(), n, h).pos.y
    ensures Run(InitialCar(), n + 1, h).pos.y - Run(InitialCar(), n, h).pos.y == Speed(n + 1)
  {
    TravelledStep(n);
    StraightRun(n, h);
    StraightRun(n + 1, h);
  }

  lemma TravelledStep(n: nat)
    ensures Speed(n + 1) >= 1.0 && Travelled(n + 1) == Travelled(n) + Speed(n + 1)
  {
  }
}
