/**
 * The camera follow (`obstacle_update_system`): each obstacle's sprite is
 * drawn at its logical x and at its logical y minus the car's y, so the
 * world scrolls past a car that stays at a fixed screen height. The system
 * only reads the obstacles and the car; here it is a function of them.
 */
module Camera {
  import opened Geometry
  import opened Entities

  /** The screen translation of one obstacle, given the car's position. */
  function ScreenTranslation(o: Obstacle, carPos: Vec2): (r: Vec2)
    ensures Vec2(r.x, r.y + carPos.y) == o.pos
  {
    Vec2(o.pos.x, o.pos.y - carPos.y)
  }

  /** The translations of all obstacles, one per obstacle, in order. */
  function Translations(obstacles: seq<Obstacle>, carPos: Vec2): (ts: seq<Vec2>)
    ensures |ts| == |obstacles|
    ensures forall i :: 0 <= i < |ts| ==> ts[i] == ScreenTranslation(obstacles[i], carPos)
  {
    seq(|obstacles|, i requires 0 <= i < |obstacles| => ScreenTranslation(obstacles[i], carPos))
  }

  /**
   * An obstacle is drawn below, on, or above the screen's centre line (screen
   * y 0) exactly as it is behind, level with, or ahead of the car.
   */
  lemma RelativeToCentre(o: Obstacle, carPos: Vec2)
    ensures ScreenTranslation(o, carPos).y < 0.0 <==> o.pos.y < carPos.y
    ensures ScreenTranslation(o, carPos).y == 0.0 <==> o.pos.y == carPos.y
  {
  }

  /** The screen y at which `sprite_movement` always draws the car. */
  const CarScreenY: real := -200.0

  /**
   * An obstacle is drawn on the car sprite's screen line exactly when it is
   * 200 behind the car, and below that line exactly when it is further
   * behind. A cone within 100 of the car in y, as any cone the car touches
   * is, is drawn above the car sprite.
   */
  lemma OnCarLine(o: Obstacle, carPos: Vec2)
    ensures ScreenTranslation(o, carPos).y == CarScreenY <==> o.pos.y == carPos.y - 200.0
    ensures ScreenTranslation(o, carPos).y < CarScreenY <==> o.pos.y < carPos.y - 200.0
    ensures -100.0 < o.pos.y - carPos.y < 100.0 ==> CarScreenY < ScreenTranslation(o, carPos).y
  {
  }

  /** The car's x does not move the camera, and moving the car and an obstacle by the same height leaves the drawing unchanged. */
  lemma FollowsOnlyY(o: Obstacle, carPos: Vec2, dx: real, dy: real)
    ensures ScreenTranslation(Obstacle(Add(o.pos, Vec2(0.0, dy))), Add(carPos, Vec2(dx, dy))) == ScreenTranslation(o, carPos)
  {
  }

  /** The screen keeps the obstacles' vertical order, and their vertical spacing. */
  lemma KeepsOrder(a: Obstacle, b: Obstacle, carPos: Vec2)
    ensures ScreenTranslation(a, carPos).y < ScreenTranslation(b, carPos).y <==> a.pos.y < b.pos.y
    ensures ScreenTranslation(b, carPos).y - ScreenTranslation(a, carPos).y == b.pos.y - a.pos.y
  {
  }

  /** When the car advances by `d`, every obstacle is drawn `d` lower. */
  lemma Scrolls(obstacles: seq<Obstacle>, carPos: Vec2, d: real, i: nat)
    requires i < |obstacles|
    ensures Translations(obstacles, Add(carPos, Vec2(0.0, d)))[i] ==
      Add(Translations(obstacles, carPos)[i], Vec2(0.0, -d))
  {
  }
}
