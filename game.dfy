/**
 * The demo's single car as a mutable object, with the systems that update it
 * in place: the startup spawn, the per-frame movement and the collision
 * reset. Each method is proved against the value-level definition of the
 * operation (`Motion.Move`, `Collision.Scan`), whose properties are proved
 * there.
 */
module Game {
  import opened Geometry
  import opened Entities
  import Layout
  import Motion
  import Collision

  class Car {
    var pos: Vec2
    var vel: Vec2
    var direction: Vec2
    var baseAcc: real
    var topSpeed: real

    /** The car's fields as a value. */
    function State(): CarState
      reads this
    {
      CarState(pos, vel, direction, baseAcc, topSpeed)
    }

    /** The car component as `setup` spawns it. */
    constructor ()
      ensures State() == InitialCar()
    {
      pos := Vec2(100.0, 0.0);
      vel := Vec2(0.0, 0.0);
      direction := Vec2(0.0, 1.0);
      baseAcc := 1.0;
      topSpeed := 40.0;
    }

    /**
     * One frame of `sprite_movement`: steer by the held key (A before D),
     * accelerate along the direction, cap the speed, advance the position.
     */
    method SpriteMovement(left: bool, right: bool, h: HostMath)
      requires Sound(h) && topSpeed >= 0.0
      modifies this
      ensures State() == Motion.Move(old(State()), left, right, h)
      ensures baseAcc == old(baseAcc) && topSpeed == old(topSpeed)
      ensures pos == Add(old(pos), vel)
      ensures !left && !right ==> direction == old(direction)
    {
      ghost var c := State();
      if left {
        direction := Rotate(direction, h.fromAngle(0.001 * Length(h, vel)));
      } else if right {
        direction := Rotate(direction, h.fromAngle(-0.001 * Length(h, vel)));
      }
      assert direction == Motion.Steer(c, left, right, h);
      vel := Add(vel, Scale(direction, baseAcc));
      var len := Length(h, vel);
      if len > topSpeed {
        Motion.ClampOver(vel, topSpeed, h, len);
        vel := Scale(Normalize(vel, len), topSpeed);
      } else {
        Motion.ClampUnder(vel, topSpeed, h, len);
      }
      pos := Add(pos, vel);
    }

    /**
     * `collision_update_system`: compare the car with each obstacle in turn
     * and reset it whenever it is within 100 units of one.
     */
    method CollisionUpdate(obstacles: seq<Obstacle>, h: HostMath)
      requires Sound(h)
      modifies this
      ensures State() == Collision.Scan(old(State()), obstacles)
      ensures Collision.AnyHit(old(pos), obstacles) ==> pos == ResetPos && vel == Zero
      ensures !Collision.AnyHit(old(pos), obstacles) ==> State() == old(State())
      ensures direction == old(direction) && baseAcc == old(baseAcc) && topSpeed == old(topSpeed)
    {
      for i := 0 to |obstacles|
        invariant State() == Collision.Scan(old(State()), obstacles[..i])
      {
        Collision.CloseIffDistance(h, pos, obstacles[i].pos);
        if Length(h, Sub(pos, obstacles[i].pos)) < Collision.Radius {
          vel := Vec2(0.0, 0.0);
          pos := Vec2(100.0, 0.0);
        }
        assert obstacles[..i + 1][..i] == obstacles[..i];
      }
      assert obstacles[..|obstacles|] == obstacles;
      Collision.ScanResult(old(State()), obstacles);
    }
  }

  /**
   * `setup`: spawn the car and then the level's obstacles, walking the level
   * table with `setup_obstacles`.
   */
  method Setup() returns (car: Car, obstacles: seq<Obstacle>)
    ensures fresh(car) && car.State() == InitialCar()
    ensures obstacles == Collision.Lv1Obstacles()
    ensures |obstacles| == 120
  {
    car := new Car();
    var points := Layout.SetupObstacles(Layout.Lv1Turns());
    obstacles := Spawn(points);
  }

  /**
   * Right after `setup`, with the car at its start, no obstacle of the level
   * is close, so a collision pass leaves the car in place; and after any
   * collision pass over the level, a second one changes nothing.
   */
  lemma StartIsClear(c: CarState)
    ensures Collision.Scan(InitialCar(), Collision.Lv1Obstacles()) == InitialCar()
    ensures Collision.Scan(Collision.Scan(c, Collision.Lv1Obstacles()), Collision.Lv1Obstacles()) ==
      Collision.Scan(c, Collision.Lv1Obstacles())
  {
    Collision.Lv1ResetClear();
    Collision.ScanResult(InitialCar(), Collision.Lv1Obstacles());
    Collision.ScanIdempotent(c, Collision.Lv1Obstacles());
  }
}
