/**
 * The collision reset (`collision_update_system`): the car is compared with
 * every obstacle in turn, and whenever it is closer than 100 units to one, its
 * velocity is zeroed and it is put back at (100, 0). A reset moves the car, so
 * the obstacles after it are compared with the reset position, not the
 * original one; `ScanResult` shows that the net effect is nevertheless
 * "reset if and only if some obstacle is close to the original position".
 */
module Collision {
  import opened Geometry
  import opened Entities
  import Layout

  /** The collision radius. */
  const Radius: real := 100.0

  /**
   * The test on squared distance that stands in for `distance < 100`; the
   * literal 10000 is `Radius` squared. A close point differs by less than
   * `Radius` in each coordinate.
   */
  function Close(p: Vec2, q: Vec2): (r: bool)
    ensures r ==> -Radius < p.x - q.x < Radius && -Radius < p.y - q.y < Radius
  {
    CloseBounds(p, q);
    DistSq(p, q) < 10000.0
  }

  lemma CloseBounds(p: Vec2, q: Vec2)
    ensures DistSq(p, q) < 10000.0 ==> -100.0 < p.x - q.x < 100.0 && -100.0 < p.y - q.y < 100.0
  {
    var dx, dy := p.x - q.x, p.y - q.y;
    SquareNonNegative(dx);
    SquareNonNegative(dy);
    assert DistSq(p, q) == dx * dx + dy * dy;
    if dx >= 100.0 || dx <= -100.0 {
      SquareAtLeast(dx, 100.0);
    }
    if dy >= 100.0 || dy <= -100.0 {
      SquareAtLeast(dy, 100.0);
    }
  }

  /** `p.distance(q) < 100` with the host square root holds exactly when the squared distance is below 10000. */
  lemma CloseIffDistance(h: HostMath, p: Vec2, q: Vec2)
    requires Sound(h)
    ensures Length(h, Sub(p, q)) < Radius <==> Close(p, q)
  {
    CompareSquares(Length(h, Sub(p, q)), Radius);
  }

  /** The reset: back to the start position, at rest; direction and constants are kept. */
  function Reset(c: CarState): (r: CarState)
    ensures r.pos == ResetPos && r.vel == Zero
    ensures r.direction == c.direction && r.baseAcc == c.baseAcc && r.topSpeed == c.topSpeed
  {
    c.(pos := ResetPos, vel := Zero)
  }

  /** The body of the scan for one obstacle: the car is kept or reset, and only position and velocity can change. */
  function Check(c: CarState, o: Obstacle): (r: CarState)
    ensures r == c || (r.pos == ResetPos && r.vel == Zero)
    ensures r.direction == c.direction && r.baseAcc == c.baseAcc && r.topSpeed == c.topSpeed
  {
    if Close(c.pos, o.pos) then Reset(c) else c
  }

  /**
   * The scan over the obstacles in query order, each compared with the car as
   * the earlier ones left it. However many resets happen, the car ends either
   * unchanged or at the reset point at rest, with its direction and constants kept.
   */
  function Scan(c: CarState, obstacles: seq<Obstacle>): (r: CarState)
    ensures r == c || (r.pos == ResetPos && r.vel == Zero)
    ensures r.direction == c.direction && r.baseAcc == c.baseAcc && r.topSpeed == c.topSpeed
  {
    if obstacles == [] then c
    else Check(Scan(c, obstacles[..|obstacles| - 1]), obstacles[|obstacles| - 1])
  }

  /** Some obstacle is close to `p`. */
  predicate AnyHit(p: Vec2, obstacles: seq<Obstacle>) {
    exists i :: 0 <= i < |obstacles| && Close(p, obstacles[i].pos)
  }

  /** Splitting off the last obstacle: some obstacle hits iff an earlier one or the last one does. */
  lemma AnyHitSnoc(p: Vec2, obstacles: seq<Obstacle>)
    requires obstacles != []
    ensures AnyHit(p, obstacles) <==>
      AnyHit(p, obstacles[..|obstacles| - 1]) || Close(p, obstacles[|obstacles| - 1].pos)
  {
    var init := obstacles[..|obstacles| - 1];
    if AnyHit(p, obstacles) && !Close(p, obstacles[|obstacles| - 1].pos) {
      var i :| 0 <= i < |obstacles| && Close(p, obstacles[i].pos);
      assert init[i] == obstacles[i];
    }
    if AnyHit(p, init) {
      var i :| 0 <= i < |init| && Close(p, init[i].pos);
      assert obstacles[i] == init[i];
    }
  }

  /**
   * The net effect of the scan: the car is reset exactly when some obstacle is
   * close to its position before the scan, and is otherwise unchanged. Neither
   * the order of the obstacles nor the number that hit matters.
   */
  lemma {:induction false} ScanResult(c: CarState, obstacles: seq<Obstacle>)
    ensures Scan(c, obstacles) == if AnyHit(c.pos, obstacles) then Reset(c) else c
  {
    if obstacles != [] {
      var init := obstacles[..|obstacles| - 1];
      ScanResult(c, init);
      AnyHitSnoc(c.pos, obstacles);
    }
  }

  /** Two obstacle lists holding the same obstacles, in any order and with any repetition, give the same result. */
  lemma ScanOrderFree(c: CarState, a: seq<Obstacle>, b: seq<Obstacle>)
    requires forall o :: o in a <==> o in b
    ensures Scan(c, a) == Scan(c, b)
  {
    ScanResult(c, a);
    ScanResult(c, b);
    SameHits(c.pos, a, b);
    SameHits(c.pos, b, a);
  }

  lemma SameHits(p: Vec2, a: seq<Obstacle>, b: seq<Obstacle>)
    requires forall o :: o in a ==> o in b
    ensures AnyHit(p, a) ==> AnyHit(p, b)
  {
    if AnyHit(p, a) {
      var i :| 0 <= i < |a| && Close(p, a[i].pos);
      assert a[i] in b;
      var j :| 0 <= j < |b| && b[j] == a[i];
    }
  }

  /** Running the scan a second time over the same obstacles changes nothing. */
  lemma ScanIdempotent(c: CarState, obstacles: seq<Obstacle>)
    ensures Scan(Scan(c, obstacles), obstacles) == Scan(c, obstacles)
  {
    ScanResult(c, obstacles);
    ScanResult(Scan(c, obstacles), obstacles);
  }

  /** A number at least `m` away from 0 has a square of at least `m * m`. */
  lemma SquareAtLeast(d: real, m: real)
    requires m >= 0.0 && (d >= m || d <= -m)
    ensures d * d >= m * m
  {
    if d >= m {
      CompareSquares(m, d);
    } else {
      CompareSquares(m, -d);
      assert d * d == (-d) * (-d);
    }
  }

  /** A point whose x lies outside (-200, 400) is at least 300 from the reset point, so its squared distance is at least 90000. */
  lemma PointClear(q: Vec2)
    requires q.x <= -200.0 || q.x >= 400.0
    ensures DistSq(ResetPos, q) >= 90000.0
    ensures !Close(ResetPos, q)
  {
    var dx, dy := 100.0 - q.x, 0.0 - q.y;
    SquareAtLeast(dx, 300.0);
    SquareNonNegative(dy);
    assert DistSq(ResetPos, q) == dx * dx + dy * dy;
  }

  /**
   * For any level table whose row offsets lie in [0, 200], every spawned
   * obstacle has x in [-400, -200] or [400, 600] and is at least 300 units from
   * the reset point, so no obstacle is close to it.
   */
  lemma LayoutClear(turns: seq<Layout.Turn>, i: nat)
    requires forall r :: 0 <= r < |turns| ==> 0 <= turns[r].xpos <= 200
    requires i < |Layout.LevelLayout(turns)|
    ensures DistSq(ResetPos, Spawn(Layout.LevelLayout(turns))[i].pos) >= 90000.0
    ensures !Close(ResetPos, Spawn(Layout.LevelLayout(turns))[i].pos)
  {
    var k := i / 2;
    Layout.LayoutPair(turns, k);
    var p := Layout.LevelLayout(turns)[i];
    assert p.x <= -200 || p.x >= 400 by {
      if i == 2 * k {
        assert p == Layout.LevelLayout(turns)[2 * k];
      } else {
        assert p == Layout.LevelLayout(turns)[2 * k + 1];
      }
    }
    PointClear(Spawn(Layout.LevelLayout(turns))[i].pos);
  }

  /** The obstacles of the level, as `setup` spawns them. */
  function Lv1Obstacles(): (r: seq<Obstacle>)
    ensures |r| == 120
  {
    Layout.Lv1Shape();
    Spawn(Layout.LevelLayout(Layout.Lv1Turns()))
  }

  /** No obstacle of the level is close to the reset point. */
  lemma Lv1ResetClear()
    ensures !AnyHit(ResetPos, Lv1Obstacles())
  {
    Layout.Lv1Shape();
    forall i | 0 <= i < |Lv1Obstacles()|
      ensures !Close(ResetPos, Lv1Obstacles()[i].pos)
    {
      LayoutClear(Layout.Lv1Turns(), i);
    }
  }

  /** On the level's obstacles, a car just reset stays where it is when the scan runs again. */
  lemma Lv1ScanAfterReset(c: CarState)
    ensures Scan(Reset(c), Lv1Obstacles()) == Reset(c)
  {
    Lv1ResetClear();
    ScanResult(Reset(c), Lv1Obstacles());
  }
}
