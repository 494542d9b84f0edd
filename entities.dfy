/**
 * The demo's two kinds of game object as plain values: the car's state and an
 * obstacle's logical world position, with the car's fixed start state.
 */
module Entities {
  import opened Geometry
  import Layout

  /** An obstacle: a fixed logical world position, never changed after it is spawned. */
  datatype Obstacle = Obstacle(pos: Vec2)

  /** The car component: position, velocity, facing direction, per-frame acceleration and speed cap. */
  datatype CarState = CarState(pos: Vec2, vel: Vec2, direction: Vec2, baseAcc: real, topSpeed: real)

  /** Where a collision puts the car back (also its start position). */
  const ResetPos: Vec2 := Vec2(100.0, 0.0)

  /** The car as `setup` creates it: at (100, 0), at rest, facing +y, acceleration 1, top speed 40. It starts at the reset point, facing straight ahead. */
  function InitialCar(): (c: CarState)
    ensures c.pos == ResetPos && c.vel == Zero
    ensures c.direction.x == 0.0 && c.direction.y > 0.0 && c.baseAcc > 0.0 && c.topSpeed > 0.0
  {
    CarState(Vec2(100.0, 0.0), Vec2(0.0, 0.0), Vec2(0.0, 1.0), 1.0, 40.0)
  }

  /** The obstacle component spawned for a layout position; its coordinates are the integer layout values, exactly. */
  function ToObstacle(p: Layout.Point): (o: Obstacle)
    ensures o.pos.x == o.pos.x.Floor as real && o.pos.x.Floor == p.x
    ensures o.pos.y == o.pos.y.Floor as real && o.pos.y.Floor == p.y
  {
    Obstacle(Vec2(p.x as real, p.y as real))
  }

  /** The obstacles spawned for a list of layout positions, one each, in order. */
  function Spawn(points: seq<Layout.Point>): (r: seq<Obstacle>)
    ensures |r| == |points|
    ensures forall i :: 0 <= i < |r| ==> r[i] == ToObstacle(points[i])
  {
    seq(|points|, i requires 0 <= i < |points| => ToObstacle(points[i]))
  }
}
