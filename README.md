# Driving demo: state logic in Dafny

This project models the game logic of a small 2D driving demo. A car drives up a
course of traffic cones. The cones are laid out once at startup from a level
table. Every frame the car steers, accelerates, caps its speed and moves. The
camera scrolls the cones relative to the car. A collision with any cone puts the
car back at its start, at rest.

The modules follow the program:

- `Geometry`: 2D real vectors and the engine math the demo calls. Square root and
  `from_angle` are a `HostMath` parameter, constrained by `Sound`, and
  `from_angle` additionally by `UnitAngles`.
- `Layout`: the level table `Lv1Turns` and the obstacle layout loop
  `SetupObstacles`/`SpawnRow`, specified by the function `LevelLayout`. It works over
  integers: every value in the table is a multiple of 50.
- `Entities`: the car and obstacle components as values, the start state, and
  the conversion of layout points into obstacles.
- `Motion`: one frame of movement (`Move`) and its properties, including the
  closed form of driving straight from the start.
- `Collision`: the collision pass (`Scan`) and its net effect, order
  independence, idempotence, and the clearance of the reset point.
- `Camera`: the per-obstacle screen translation.
- `Game`: the car as a mutable `class Car`. Its methods update the fields in
  place and are proved equal to `Motion.Move` and `Collision.Scan`. `Setup`
  spawns the car and the level.

## Model

| member | source | states |
|---|---|---|
| `Geometry.Length` | src/main.rs:160-162 | `length()` is the non-negative number whose square is the squared length |
| `Geometry.Normalize` | src/main.rs:163 | `normalize()` of a vector with positive length gives a unit vector, parallel to it and pointing the same way |
| `Geometry.Rotate` | src/main.rs:143-151 | `rotate` by the x axis leaves a vector as it is, by the y axis turns it a quarter to the left |
| `Geometry.RotateLengthSq` | src/main.rs:143-151 | `rotate` multiplies squared lengths, as complex multiplication does |
| `Geometry.RotateKeepsLength` | src/main.rs:143-151 | rotating by a unit vector from `from_angle` keeps a vector's length |
| `Layout.PairXsFromTable` | src/main.rs:59 | every pair offset is the `xpos` of some row of the table |
| `Layout.HeightIs` | src/main.rs:56-84 | the running height after k pairs is −100 + 100k |
| `Layout.Lv1Turns` | src/main.rs:36-38 | the level table has three rows, each with a positive count and an offset in [0, 200] |
| `Layout.MirroredPair` | src/main.rs:63-84 | the two cones of one inner iteration share the height `ypos`, are 800 apart, and their x values sum to 2·xpos |
| `Layout.Pairs` | src/main.rs:63-84 | a list of pair offsets gives exactly two cones per offset |
| `Layout.LevelLayout` | src/main.rs:56-85 | a table gives exactly two obstacles per requested pair |
| `Layout.LayoutPair` | src/main.rs:56-84 | pair k sits at y = −100 + 100k, its x values are the row offset − 400 and + 400, summing to twice the offset, which belongs to some row |
| `Layout.LayoutAscends` | src/main.rs:84 | pair heights strictly increase, by exactly 100 per pair |
| `Layout.Lv1Shape` | src/main.rs:36-38 | the level table asks for 60 pairs, so 120 obstacles, and all row offsets lie in [0, 200] |
| `Layout.NextRow` | src/main.rs:59 | one more row appends its xpos `count` times to the pair offsets |
| `Layout.SetupObstacles` | src/main.rs:40-87 | the nested loop spawns exactly `LevelLayout(turns)`, in order |
| `Layout.SpawnRow` | src/main.rs:62-85 | the inner loop over one row appends that row's pairs and raises `ypos` by 100 per pair |
| `Entities.InitialCar` | src/main.rs:99-105 | the car starts at rest at the reset point, facing straight along +y, with positive acceleration and top speed |
| `Entities.ToObstacle` | src/main.rs:69-81 | each cone of a pair (lines 69-71 and 79-81) gets coordinates that are whole numbers equal to the integer layout coordinates |
| `Entities.Spawn` | src/main.rs:62-83 | one obstacle per layout point, in order, at the same coordinates |
| `Motion.Steer` | src/main.rs:141-156 | with no key, or with the car at rest, the direction is unchanged |
| `Motion.SteerKeepsLength` | src/main.rs:143-151 | steering keeps the direction's length when `from_angle` gives unit vectors |
| `Motion.SteerProportional` | src/main.rs:141-153 | A rotates by 0.001·speed, otherwise D by −0.001·speed; A wins when both are held |
| `Motion.Clamp` | src/main.rs:161-164 | after the cap the squared speed is at most top²; a vector within the cap is kept; a longer one gets length exactly `top` and stays parallel to, and in the same direction as, the input |
| `Motion.ClampUnder` | src/main.rs:162 | proof helper for `Game.Car.SpriteMovement`: the untaken branch of `Clamp`, at or below the cap the velocity is not touched |
| `Motion.ClampOver` | src/main.rs:162-163 | proof helper for `Game.Car.SpriteMovement`: the taken branch of `Clamp`, above the cap the velocity becomes its normalization scaled by `top_speed` |
| `Motion.Move` | src/main.rs:139-166 | acceleration and top speed are unchanged; the direction is the steered one; no key leaves it unchanged; \|vel'\| ≤ top; vel' is the unclamped sum when that fits; pos' = pos + vel' |
| `Motion.Run` | src/main.rs:139-166 | n frames with no key keep the direction, acceleration and top speed |
| `Motion.ClampAlongY` | src/main.rs:161-164 | a velocity (0, s) is capped to (0, min(s, top)) |
| `Motion.StraightRun` | src/main.rs:99-105 | from the start state with no key, after n frames pos = (100, Σ min(k, 40)), vel = (0, min(n, 40)), direction (0, 1) |
| `Motion.StraightRunAdvances` | src/main.rs:158-166 | with no key from the start, pos.y strictly increases each frame, by that frame's speed |
| `Collision.CloseIffDistance` | src/main.rs:200 | `distance < 100` holds exactly when the squared distance is below 10000 |
| `Collision.Close` | src/main.rs:200 | the squared-distance test; a close obstacle differs from the car by less than 100 in each coordinate |
| `Collision.Check` | src/main.rs:200-203 | one comparison leaves the car as it is or resets it to (100, 0) at rest; the direction and constants are kept |
| `Collision.Scan` | src/main.rs:197-205 | the sequential pass, each obstacle compared with the car as the earlier ones left it, ends with the car unchanged or at (100, 0) at rest, direction and constants kept |
| `Collision.Reset` | src/main.rs:201-202 | a reset puts the car at (100, 0) at rest and keeps direction and constants |
| `Collision.AnyHitSnoc` | src/main.rs:199 | some obstacle hits iff an earlier one or the last one does |
| `Collision.ScanResult` | src/main.rs:197-205 | the pass resets the car exactly when some obstacle is within 100 of its position before the pass, and otherwise leaves it unchanged |
| `Collision.ScanOrderFree` | src/main.rs:199 | the result depends only on which obstacles there are, not on their order or repetition |
| `Collision.SameHits` | src/main.rs:199 | with fewer distinct obstacles there are no more hits |
| `Collision.ScanIdempotent` | src/main.rs:197-205 | a second pass over the same obstacles changes nothing |
| `Collision.PointClear` | src/main.rs:200-202 | a point with x ≤ −200 or x ≥ 400 is at squared distance ≥ 90000 from the reset point |
| `Collision.LayoutClear` | src/main.rs:56-84 | for any table with offsets in [0, 200], every spawned obstacle is ≥ 300 from the reset point and does not hit it |
| `Collision.Lv1Obstacles` | src/main.rs:36-87 | the level spawns 120 obstacles |
| `Collision.Lv1ResetClear` | src/main.rs:36-38 | no obstacle of the level is within 100 of the reset point |
| `Collision.Lv1ScanAfterReset` | src/main.rs:197-205 | on the level, a pass right after a reset leaves the car where it is |
| `Camera.ScreenTranslation` | src/main.rs:192-193 | the translation and the car's y give back the obstacle's logical position |
| `Camera.Translations` | src/main.rs:189-195 | one translation per obstacle, in order |
| `Camera.RelativeToCentre` | src/main.rs:193 | a cone is drawn below, on or above the screen's centre line (y 0) exactly when it is behind, level with or ahead of the car |
| `Camera.OnCarLine` | src/main.rs:193 | the car sprite is drawn at screen y −200 (line 169), so a cone is drawn on that line exactly when it is 200 behind the car, below it when further behind, and above it when within 100 of the car in y |
| `Camera.FollowsOnlyY` | src/main.rs:192-193 | the car's x does not move the camera, and a common vertical shift cancels |
| `Camera.KeepsOrder` | src/main.rs:193 | screen order and spacing on y are those of the world |
| `Camera.Scrolls` | src/main.rs:193 | when the car advances by d, every cone is drawn d lower |
| `Game.Car.constructor` | src/main.rs:99-105 | the new car is at (100, 0), at rest, facing (0, 1), acceleration 1, top speed 40 |
| `Game.Car.SpriteMovement` | src/main.rs:139-166 | the in-place update yields exactly `Motion.Move` of the old state, keeps the constants, and moves pos by the new vel |
| `Game.Car.CollisionUpdate` | src/main.rs:197-205 | the in-place loop yields exactly `Collision.Scan` of the old state: a reset iff some obstacle was within 100, otherwise no change |
| `Game.Setup` | src/main.rs:89-107 | a fresh car in the start state and the 120 obstacles of the level |
| `Game.StartIsClear` | src/main.rs:99-107 | the start position touches no obstacle, and a second collision pass over the level is a no-op |

## Left out

- Engine math: `length` and `from_angle` are not definable in Dafny. They are the
  `HostMath` parameter. `Sound` assumes an exact non-negative square root with root 0
  at 0, and angle 0 mapping to (1, 0). `UnitAngles` assumes that `from_angle`
  always gives a unit vector. Only the lemmas that say so use `UnitAngles`.
- f32 arithmetic: positions and velocities are exact reals, so rounding is not
  modelled. Layout coordinates are integers, which are exact for the level's
  multiples of 50.
- Frame time: the movement step is per frame tick, as in the program. Elapsed time is read but not used.
- Texture swaps, asset loading, sprite scale and z, writing the car's screen y of
  −200 into its sprite (only the constant `Camera.CarScreenY` is kept), copying the car's x into its sprite, and the sprite rotation via `to_angle`:
  these are render-only effects of foreign engine calls.
- The cones' initial sprite translation (xpos, 20, −1) and scale: the camera
  system overwrites the translation every frame, and the rest is render-only.
- The 200-unit gap between drawing and collision: collisions compare logical
  positions, while the car sprite is drawn at screen y −200 and cones at their
  y relative to the car. So a cone the car touches is drawn above the car sprite
  (`Camera.OnCarLine`). The model states this gap and does not change it.
- The HUD timer text: it depends on the wall clock and float formatting.
- The ECS scheduling: app setup, queries, commands and system registration. The
  four systems run in no declared order, so each is modelled on its own, for one frame.
- The single car: the program assumes exactly one car (`single_mut`, `next().unwrap()`),
  and the model has exactly one. The panic on zero or several cars is not modelled.
- The level table is a parameter of `SetupObstacles`. `Setup` passes `Lv1Turns()`.
  The inner per-row loop is the separate method `SpawnRow`.
- The camera's writes into the obstacles' transforms are the function
  `Camera.Translations`, which returns the translations. None of the obstacles or the car is changed.
- `Motion.Clamp`, `Motion.Move`, `Motion.Run` and `Game.Car.SpriteMovement` require a top speed
  of at least 0, which the program never checks. The car's top speed is 40 and
  nothing changes it. With a negative cap, the program would normalize even a
  zero vector, and that case is not modelled.
