# TheNeverEndingRun — a verified model of the runner's per-tick core

This project models, in Dafny, the logic the endless runner *TheNeverEndingRun*
executes every tick:

- **Probe collision** (`ProbeCollision`, root `CollisionManager`): four 1-unit
  probe strips around the hero's box. The probe covered by the obstacle with the
  strictly greatest positive area gives the side, and ties go to the lowest
  index. The hero is then pushed out sideways or landed on top of the obstacle.
  A `wasOnObstacle` flag turns losing ground contact into a single Fall request.
- **Collision bookkeeping** (`CollisionService`, services `CollisionManager`):
  each call ends the collisions that are over, then begins one for every sprite
  that collides now, and keeps the colliding sprites for the next call. The
  outcome of enemy fights and power-up pickups comes from an `Oracle`. Reactions
  come back as a trace.
- **Obstacle stream** (`ObstaclesManager`, `SpawnableManager`):
  - which obstacle type may follow the last one, given the free distance to the
    viewport edge;
  - where a new obstacle is placed;
  - the clearing of obstacles that left the screen;
  - the validated setters.
- **Jumpable obstacles** (`JumpableObstacles`): the one-time resize strictly
  below the jump height, after which the size is frozen.
- **Hero move states** (`HeroMoveStates`, `HeroStateTypes`, `HeroModel`):
  - the completeness check of the animation map;
  - the animation and sound set when a state is entered;
  - horizontal movement by facing;
  - the final `onIdle` rule (moving means Run).
- **Helpers**: score accrual from meters (`Score`), power-up strategy dispatch
  (`PowerUpStrategies`), and the cyclic UP-key menu navigation (`GameStates`).

Java semantics the core depends on live in `JavaLang`:

- `%` truncates toward zero;
- `int` addition wraps;
- a `double` narrowed to `int` saturates;
- `nextInt(origin, bound)` throws on an empty range.

Every random draw is a parameter. A draw whose range is fixed carries that range
as a precondition. A draw whose range depends on measures is taken as a raw
`seed`, reduced by `JavaLang.NextInt`; `NextIntReachesEveryValue` shows that no
outcome is lost this way. The viewport width, the hero's measures and what the
obstacle factory builds are also parameters.

The root collision classifier's sides follow the code's naming:

- `RIGHT = 0` is the probe to the hero's left (the hero is put at the obstacle's
  right edge);
- `LEFT = 2` is the probe to its right.

In the worked example, the hero `{x=110, y=0, w=20, h=40}` moves right towards
the obstacle `{x=130, y=0, w=10, h=10}` in steps of 5. The first overlap gives
side LEFT, and the hero stays at x = 130 − 20 = 110, which `ExampleResolution`
proves.

## Model

| member | source | states |
|---|---|---|
| JavaLang.Rem | Game/src/main/java/it/unisa/theneverendingrun/obstaclesManager/SpawnableManager.java:147 | Java's `%`: for a non-negative dividend the result is in [0, abs(b)); for a negative one it is in (−abs(b), 0]; it is zero exactly when b divides a, and a − r is a multiple of b (which, with the sign bands, fixes the value) |
| JavaLang.Wrap32 | Game/src/main/java/it/unisa/theneverendingrun/services/score/ScoreMetersListener.java:127 | `int` addition: the result is an `int`, equals the exact sum when that fits, and differs from it by a multiple of 2^32 |
| JavaLang.SaturatingCast | Game/src/main/java/it/unisa/theneverendingrun/services/score/ScoreMetersListener.java:126 | the `(int)` narrowing: identity inside the `int` range, clamped to the nearest bound outside it |
| JavaLang.NextInt | Game/src/main/java/it/unisa/theneverendingrun/obstaclesManager/SpawnableManager.java:177-180 | `nextInt(origin, bound)`: throws `IllegalArgumentException` exactly when origin ≥ bound, otherwise yields a value in [origin, bound) |
| JavaLang.NextIntReachesEveryValue | Game/src/main/java/it/unisa/theneverendingrun/models/obstacle/JumpableObstacle.java:25 | every value of a non-empty range is the outcome of some draw |
| Geometry.Intersection | Game/src/main/java/it/unisa/theneverendingrun/CollisionManager.java:52-53 | the intersection of two strictly overlapping boxes has positive size, lies inside both, and contains every box that lies inside both |
| Geometry.OverlapArea | Game/src/main/java/it/unisa/theneverendingrun/CollisionManager.java:52-57 | the covered area is never negative, and it is positive exactly when the boxes strictly overlap |
| Geometry.OverlapAreaOfSides | Game/src/main/java/it/unisa/theneverendingrun/CollisionManager.java:53-57 | the covered area of intersecting boxes is the product of the overlap width and height |
| Geometry.IntersectsSymmetric | Game/src/main/java/it/unisa/theneverendingrun/CollisionManager.java:52 | strict overlap does not depend on argument order |
| Geometry.OverlapAreaBounded | Game/src/main/java/it/unisa/theneverendingrun/CollisionManager.java:53-57 | for intersecting boxes, the covered area never exceeds either box's own area |
| HeroStateTypes.Values | Game/src/main/java/it/unisa/theneverendingrun/models/hero/HeroStateType.java:7-13 | exactly seven constants, pairwise distinct, each at its declaration position (IDLE … ATTACK) |
| HeroStateTypes.SoundPath | Game/src/main/java/it/unisa/theneverendingrun/models/hero/HeroStateType.java:7-13 | the path is non-empty exactly for DEAD, SLIDE and JUMP |
| HeroStateTypes.Entry | Game/src/main/java/it/unisa/theneverendingrun/models/hero/HeroStateType.java:19-35 | a constant keeps its declared path; a sound whose load throws is stored as null, and a loaded one is stored as is |
| HeroStateTypes.CompleteMapHasEveryType | Game/src/main/java/it/unisa/theneverendingrun/models/hero/state/HeroMoveState.java:43-44 | a map with as many entries as there are state types has an entry for every type; for maps whose keys are never null the size check is a completeness check |
| HeroMoveStates.EnteringSetsAnimationThenAtMostOneSound | Game/src/main/java/it/unisa/theneverendingrun/models/hero/state/HeroMoveState.java:46-47 | entering a state first sets the animation, then plays at most one sound. The animation is the map entry of the state's type, or null, without throwing. A sound plays exactly when the type is non-null and has a registered sound. Nothing else changes |
| HeroMoveStates.NewMoveState | Game/src/main/java/it/unisa/theneverendingrun/models/hero/state/HeroMoveState.java:39-48 | throws exactly when the animation map is incomplete, and then leaves the hero untouched; otherwise the hero has entered the new state |
| HeroMoveStates.SetAnimation | Game/src/main/java/it/unisa/theneverendingrun/models/hero/state/HeroMoveState.java:136-150 | sets the hero's animation to the entry for the state's type, falling back to null |
| HeroMoveStates.PlaySound | Game/src/main/java/it/unisa/theneverendingrun/models/hero/state/HeroMoveState.java:152-160 | plays the type's registered sound, and nothing when the type is null or has no sound |
| HeroMoveStates.MoveShiftsOnlyX | Game/src/main/java/it/unisa/theneverendingrun/models/hero/state/HeroMoveState.java:54-86 | `move` adds dx facing right, subtracts it facing left, otherwise does nothing; only x ever changes |
| HeroMoveStates.MoveRightThenLeftReturns | Game/src/main/java/it/unisa/theneverendingrun/models/hero/state/HeroMoveState.java:76-86 | a move right and a move left at the same speed cancel out |
| HeroMoveStates.Move | Game/src/main/java/it/unisa/theneverendingrun/models/hero/state/HeroMoveState.java:54-70 | the hero after `move` is exactly `Moved` of the hero before |
| HeroMoveStates.OnIdleWhileMovingRuns | Game/src/main/java/it/unisa/theneverendingrun/models/hero/state/HeroMoveState.java:88-91 | a moving hero switches to a Run state with the same animation map, keeps its box, and `onStand` is not requested |
| HeroMoveStates.OnIdleAtRestStands | Game/src/main/java/it/unisa/theneverendingrun/models/hero/state/HeroMoveState.java:90-93 | a hero at rest is only handed to the current state's `onStand` |
| HeroMoveStates.OnIdleIgnoresCurrentStateWhileMoving | Game/src/main/java/it/unisa/theneverendingrun/models/hero/state/HeroMoveState.java:88 | `onIdle` is final: while moving, the outcome is the same whatever the current concrete state |
| HeroMoveStates.OnIdle | Game/src/main/java/it/unisa/theneverendingrun/models/hero/state/HeroMoveState.java:88-93 | the hero after `onIdle` is `Idled` of the hero before, and its move state stays complete (so the Run state's construction never throws) |
| ProbeCollision.ProbesSurroundHero | Game/src/main/java/it/unisa/theneverendingrun/CollisionManager.java:43-46 | the probes are 1-unit strips flush against the left, bottom, right and top sides, and none overlaps the hero |
| ProbeCollision.CollisionSideUnique | Game/src/main/java/it/unisa/theneverendingrun/CollisionManager.java:38-66 | at most one side fits the classification, so the same boxes always give the same side |
| ProbeCollision.ScanFinds | Game/src/main/java/it/unisa/theneverendingrun/CollisionManager.java:51-63 | continuing the scan from any consistent running best ends on a side that fits the classification |
| ProbeCollision.ChosenSideIsCollisionSide | Game/src/main/java/it/unisa/theneverendingrun/CollisionManager.java:48-65 | the side is −1 or 0..3. It is −1 exactly when no probe is covered with positive area. Otherwise its area is positive and greatest, and no lower index has the same area |
| ProbeCollision.EdgeContactIsNoCollision | Game/src/main/java/it/unisa/theneverendingrun/CollisionManager.java:48-63 | touching edges (zero area) never count as a collision |
| ProbeCollision.OnlyRightProbeCoveredIsLeft | Game/src/main/java/it/unisa/theneverendingrun/CollisionManager.java:48-65 | when only the probe to the right of the hero is covered, the side is LEFT |
| ProbeCollision.ExampleSideIsLeft | Game/src/main/java/it/unisa/theneverendingrun/CollisionManager.java:38-66 | hero {110,0,20,40} and obstacle {130,0,10,10}: probe 2 is covered with area 10, and the side is LEFT (2) |
| ProbeCollision.ExampleNoSideOneStepEarlier | Game/src/main/java/it/unisa/theneverendingrun/CollisionManager.java:38-66 | one step earlier (x = 105) no probe is covered |
| ProbeCollision.CollisionSide | Game/src/main/java/it/unisa/theneverendingrun/CollisionManager.java:38-66 | the loop over the probe array returns a side fitting the classification, and changes nothing |
| ProbeCollision.SideContactSnapsX | Game/src/main/java/it/unisa/theneverendingrun/CollisionManager.java:21-24 | side RIGHT puts the hero at the obstacle's right edge; LEFT puts the hero's right edge at the obstacle's x; only x changes, and the flag stays |
| ProbeCollision.LandingSnapsToTop | Game/src/main/java/it/unisa/theneverendingrun/CollisionManager.java:25-28 | side BOTTOM sets the flag, applies `onIdle`, then sets y exactly to the obstacle's top |
| ProbeCollision.OverheadContactChangesNothing | Game/src/main/java/it/unisa/theneverendingrun/CollisionManager.java:29 | side TOP changes neither the hero nor the flag |
| ProbeCollision.NoContactFallsOnce | Game/src/main/java/it/unisa/theneverendingrun/CollisionManager.java:30-34 | with no side, Fall is requested exactly when the flag was set; the flag ends cleared and nothing else changes |
| ProbeCollision.ExampleResolution | Game/src/main/java/it/unisa/theneverendingrun/CollisionManager.java:21-24 | in the worked example the resolved hero stays at x = 130 − 20 = 110 |
| ProbeCollision.CollisionManager.constructor | Game/src/main/java/it/unisa/theneverendingrun/CollisionManager.java:12 | the flag starts false |
| ProbeCollision.CollisionManager.CheckCollision | Game/src/main/java/it/unisa/theneverendingrun/CollisionManager.java:16-36 | the new hero and flag are `Resolve` of the old ones, and the hero's move state stays complete |
| PowerUpStrategies.PowerUpStrategyFactory.constructor | Game/src/main/java/it/unisa/theneverendingrun/models/powerup/strategies/PowerUpStrategyFactory.java:12-14 | the factory is bound to the given hero |
| PowerUpStrategies.PowerUpStrategyFactory.CreatePowerUpStrategy | Game/src/main/java/it/unisa/theneverendingrun/models/powerup/strategies/PowerUpStrategyFactory.java:16-25 | SWORD gives a sword strategy and SHIELD a shield strategy, both bound to the factory's hero; every other kind throws `IllegalArgumentException`; a strategy is never missing |
| CollisionService.EndStep | Game/src/main/java/it/unisa/theneverendingrun/services/collision/CollisionManager.java:92-115 | an ending obstacle asks for Fall exactly when the flag is set and clears it; an ending enemy idles; other sprites do nothing; all of these are end reactions |
| CollisionService.BeginStep | Game/src/main/java/it/unisa/theneverendingrun/services/collision/CollisionManager.java:45-90 | an obstacle applies its side strategy, and the flag becomes set iff it was or the side is BOTTOM. An enemy is attacked, then exactly one of enemy-dies or hero-dies follows, as the sword decides. A power-up is hidden iff collected. Only a power-up of an unregistered kind throws |
| CollisionService.EndAllFallsAtMostOnce | Game/src/main/java/it/unisa/theneverendingrun/services/collision/CollisionManager.java:35-37 | Fall requests in the end phase plus the final flag equal the initial flag, so there is at most one Fall |
| CollisionService.EndAllOnlyDeparted | Game/src/main/java/it/unisa/theneverendingrun/services/collision/CollisionManager.java:35-37 | end reactions concern only sprites that collided last call and no longer do, and every such enemy is idled; Fall needs the flag; the flag survives exactly when no departed sprite is an obstacle |
| CollisionService.EndAllHasOnlyEndReactions | Game/src/main/java/it/unisa/theneverendingrun/services/collision/CollisionManager.java:92-115 | the end phase produces only Fall and idle reactions |
| CollisionService.EndAllIdlesDeparted | Game/src/main/java/it/unisa/theneverendingrun/services/collision/CollisionManager.java:35-37 | an enemy is idled exactly when it was in the previous colliding list and does not collide now (both directions) |
| CollisionService.EndAllFlag | Game/src/main/java/it/unisa/theneverendingrun/services/collision/CollisionManager.java:98-103 | the flag survives the end phase exactly when it was set and every previous obstacle still collides |
| CollisionService.BeginAllHasNoEndReactions | Game/src/main/java/it/unisa/theneverendingrun/services/collision/CollisionManager.java:39-42 | the begin phase never produces an end reaction |
| CollisionService.BeginAllKeepsColliding | Game/src/main/java/it/unisa/theneverendingrun/services/collision/CollisionManager.java:39-42 | without an exception, the collected list is exactly the colliding input sprites, in input order |
| CollisionService.BeginAllStaysThrown | Game/src/main/java/it/unisa/theneverendingrun/services/collision/CollisionManager.java:39-42 | after an exception no later sprite is looked at |
| CollisionService.BeginAllReachesEveryColliding | Game/src/main/java/it/unisa/theneverendingrun/services/collision/CollisionManager.java:39-85 | without an exception, every colliding obstacle, enemy and collected power-up begins, whether or not it collided before; hidden power-ups and attacked enemies are always colliding inputs |
| CollisionService.BeginAllFlag | Game/src/main/java/it/unisa/theneverendingrun/services/collision/CollisionManager.java:51-57 | the begin phase never clears the flag; without an exception it ends set iff it was set or some colliding obstacle touches BOTTOM |
| CollisionService.ThrowsOnlyForUnknownPowerUp | Game/src/main/java/it/unisa/theneverendingrun/services/collision/CollisionManager.java:78-81 | the begin phase throws exactly when some colliding power-up has a kind no strategy is registered for |
| CollisionService.FallAtMostOncePerCall | Game/src/main/java/it/unisa/theneverendingrun/services/collision/CollisionManager.java:33-43 | one call requests Fall at most once, and only if the flag was set when the call started |
| CollisionService.EndsPrecedeBegins | Game/src/main/java/it/unisa/theneverendingrun/services/collision/CollisionManager.java:33-43 | in a call's trace, every end reaction comes before every begin reaction |
| CollisionService.CollidingSpritesAfterCall | Game/src/main/java/it/unisa/theneverendingrun/services/collision/CollisionManager.java:39-42 | after a call, the colliding list is the colliding inputs in order, or the old list when the call threw |
| CollisionService.CollisionManager.constructor | Game/src/main/java/it/unisa/theneverendingrun/services/collision/CollisionManager.java:25-31 | the flag starts false, the colliding list empty, and the factory is bound to the hero |
| CollisionService.CollisionManager.CheckCollision | Game/src/main/java/it/unisa/theneverendingrun/services/collision/CollisionManager.java:33-43 | trace, exception, flag and colliding list are those of `Checked` on the old state |
| CollisionService.CollisionManager.EndCollisions | Game/src/main/java/it/unisa/theneverendingrun/services/collision/CollisionManager.java:35-37 | the loop over the previous colliding list performs `EndAll` |
| CollisionService.CollisionManager.BeginCollisions | Game/src/main/java/it/unisa/theneverendingrun/services/collision/CollisionManager.java:39-42 | the loop over the input performs `BeginAll`, stopping at the first exception |
| CollisionService.CollisionManager.BeginCollision | Game/src/main/java/it/unisa/theneverendingrun/services/collision/CollisionManager.java:45-90 | reactions, flag and exception are those of `BeginStep` |
| CollisionService.CollisionManager.EndCollision | Game/src/main/java/it/unisa/theneverendingrun/services/collision/CollisionManager.java:92-115 | reactions and flag are those of `EndStep` |
| JumpableObstacles.ResizedHeight | Game/src/main/java/it/unisa/theneverendingrun/models/obstacle/JumpableObstacle.java:21-25 | throws exactly when the height is not below jumpHeight − 1; otherwise the new height is in [min(h, J − 1), J − 1) |
| JumpableObstacles.ResizeRaisesBelowJumpHeight | Game/src/main/java/it/unisa/theneverendingrun/models/obstacle/JumpableObstacle.java:22-25 | a successful resize never lowers the obstacle and leaves it strictly below the jump height |
| JumpableObstacles.ResizeReachesEveryHeight | Game/src/main/java/it/unisa/theneverendingrun/models/obstacle/JumpableObstacle.java:25 | every height of the range is a possible outcome |
| JumpableObstacles.JumpableObstacle.Wrap | Game/src/main/java/it/unisa/theneverendingrun/models/obstacle/JumpableObstacle.java:15-17 | the decorator wraps the obstacle and is not yet resized |
| JumpableObstacles.JumpableObstacle.Create | Game/src/main/java/it/unisa/theneverendingrun/models/obstacle/JumpableObstacle.java:15-19 | construction throws exactly when the range is empty, and then leaves the obstacle unchanged. Otherwise the result is valid (resized, and below jumpHeight − 1), with the drawn height, the same width and the same position |
| JumpableObstacles.JumpableObstacle.ResizeObstacleToJump | Game/src/main/java/it/unisa/theneverendingrun/models/obstacle/JumpableObstacle.java:21-28 | keeps the width, sets the drawn height, and freezes the size; on an empty range it changes nothing |
| JumpableObstacles.JumpableObstacle.SetSize | Game/src/main/java/it/unisa/theneverendingrun/models/obstacle/JumpableObstacle.java:74-78 | after the resize, the wrapped obstacle is untouched; before it, the size is forwarded |
| JumpableObstacles.JumpableObstacle.SetPosition | Game/src/main/java/it/unisa/theneverendingrun/models/obstacle/JumpableObstacle.java:80-83 | the position is still forwarded after the resize; the size and validity are kept |
| JumpableObstacles.ResizedDecoratorIsJumpable | Game/src/main/java/it/unisa/theneverendingrun/models/obstacle/JumpableObstacle.java:34-109 | a resized decorator reports itself jumpable whatever the wrapped obstacle says, its top stays below its base plus jumpHeight − 1, and its other capabilities are the wrapped obstacle's |
| ObstaclesManager.AppropriateType | Game/src/main/java/it/unisa/theneverendingrun/obstaclesManager/SpawnableManager.java:99-153 | with no visible last obstacle a type is always chosen; with one, any chosen type has distance 0 or at least standardWidth × multiplier |
| ObstaclesManager.EmptyScreenAnyType | Game/src/main/java/it/unisa/theneverendingrun/obstaclesManager/SpawnableManager.java:101-104 | with nothing visible, every type can be chosen |
| ObstaclesManager.NothingWhileLastEntering | Game/src/main/java/it/unisa/theneverendingrun/obstaclesManager/SpawnableManager.java:108-112 | a negative distance never spawns |
| ObstaclesManager.ChoiceAtContact | Game/src/main/java/it/unisa/theneverendingrun/obstaclesManager/SpawnableManager.java:115-137 | at distance 0: after a Jumpable, −1 gives Slidable, 0 nothing and 1 Jumpable. After a Slidable or JumpableSlidable, nothing. After a Wolf or Golem, heads gives Jumpable. Any other choice needs a zero minimum gap |
| ObstaclesManager.NothingInsideTheGap | Game/src/main/java/it/unisa/theneverendingrun/obstaclesManager/SpawnableManager.java:140-142 | a positive distance below the minimum gap never spawns |
| ObstaclesManager.SpawnRollPastTheGap | Game/src/main/java/it/unisa/theneverendingrun/obstaclesManager/SpawnableManager.java:145-151 | past the gap, a type is chosen exactly when `nextInt() % spawnProbability` is zero (negative rolls included), always when the probability is 1, and it is the drawn index's type |
| ObstaclesManager.GroundTypesOnGround | Game/src/main/java/it/unisa/theneverendingrun/obstaclesManager/SpawnableManager.java:166-174 | Wolf, Golem, Witch and Jumpable are placed at y = offset |
| ObstaclesManager.SlidableBand | Game/src/main/java/it/unisa/theneverendingrun/obstaclesManager/SpawnableManager.java:176-184 | a Slidable floats in [H/2, H − 1) above its base. The base is the ground, or the top of an edge-touching Jumpable it chains onto. A hero of standard height ≤ 2 makes the draw throw |
| ObstaclesManager.JumpableSlidableBand | Game/src/main/java/it/unisa/theneverendingrun/obstaclesManager/SpawnableManager.java:187-193 | a JumpableSlidable leaves H/2 free below it and keeps its top below H/2 + jump elevation; it throws when it is at least as tall as the jump elevation |
| ObstaclesManager.SlidableReachesEveryHeight | Game/src/main/java/it/unisa/theneverendingrun/obstaclesManager/SpawnableManager.java:177-180 | every height of an unchained Slidable's band is a possible placement |
| ObstaclesManager.RemoveFirst | Game/src/main/java/it/unisa/theneverendingrun/obstaclesManager/SpawnableManager.java:212 | `remove` takes away exactly one occurrence (as multisets), and nothing when the obstacle is absent |
| ObstaclesManager.RemoveEachMultiset | Game/src/main/java/it/unisa/theneverendingrun/obstaclesManager/SpawnableManager.java:211-214 | removing a list of obstacles one by one subtracts their multiset |
| ObstaclesManager.RemovingEveryElementEmpties | Game/src/main/java/it/unisa/theneverendingrun/obstaclesManager/SpawnableManager.java:207-214 | removing every element of a list from it, duplicates included, empties it |
| ObstaclesManager.ObstacleList.Remove | Game/src/main/java/it/unisa/theneverendingrun/obstaclesManager/SpawnableManager.java:212 | the list loses the first occurrence; the result says whether there was one |
| ObstaclesManager.SpawnableManager.constructor | Game/src/main/java/it/unisa/theneverendingrun/obstaclesManager/SpawnableManager.java:18-19 | defaults 50 and 3, no last obstacle, offset from the ground, hero measures stored |
| ObstaclesManager.SpawnableManager.GenerateNewObstacle | Game/src/main/java/it/unisa/theneverendingrun/obstaclesManager/SpawnableManager.java:60-70 | with no type chosen, or a throwing placement, it returns null or the exception and the last obstacle is unchanged. Otherwise a fresh obstacle at (viewport width, `PlacementY`) becomes the last one with its type. The setters' values are kept |
| ObstaclesManager.SpawnableManager.SetPosition | Game/src/main/java/it/unisa/theneverendingrun/obstaclesManager/SpawnableManager.java:165-195 | on success x is the viewport width, y is `PlacementY` and the size is kept; on an empty draw range it throws and leaves the obstacle untouched |
| ObstaclesManager.SpawnableManager.ClearOldObstacles | Game/src/main/java/it/unisa/theneverendingrun/obstaclesManager/SpawnableManager.java:202-215 | an empty list stays empty; otherwise the whole list is emptied when the last obstacle is more than the hero's width off screen, and left unchanged if not |
| ObstaclesManager.SpawnableManager.RemoveAll | Game/src/main/java/it/unisa/theneverendingrun/obstaclesManager/SpawnableManager.java:211-214 | the removal loop leaves `RemoveEach` of the old list |
| ObstaclesManager.SpawnableManager.SetSpawnProbability | Game/src/main/java/it/unisa/theneverendingrun/obstaclesManager/SpawnableManager.java:224-229 | values below 1 throw and are not stored; others are stored |
| ObstaclesManager.SpawnableManager.SetMinimumDistanceMultiplier | Game/src/main/java/it/unisa/theneverendingrun/obstaclesManager/SpawnableManager.java:240-244 | values below 1 throw and are not stored; others are stored |
| Score.RoundTenths | Game/src/main/java/it/unisa/theneverendingrun/services/score/ScoreMetersListener.java:110 | the stored tenths are within half a tenth of the given multiplier |
| Score.RoundTenthsKeepsTenths | Game/src/main/java/it/unisa/theneverendingrun/services/score/ScoreMetersListener.java:110 | a multiplier that already has one decimal is stored unchanged |
| Score.Gain | Game/src/main/java/it/unisa/theneverendingrun/services/score/ScoreMetersListener.java:126 | `(int)(SCORE_FACTOR × multiplier)` is the number of tenths while it fits an `int`, and is non-negative for a non-negative multiplier |
| Score.WithScore | Game/src/main/java/it/unisa/theneverendingrun/services/score/ScoreMetersListener.java:100-103 | a score write appends exactly one notification carrying the new score, and keeps the earlier ones |
| Score.EveryMetersChangeScores | Game/src/main/java/it/unisa/theneverendingrun/services/score/ScoreMetersListener.java:122-130 | other events change nothing. Since METERS_DELTA is 1, every METERS_CHANGED adds the gain (with `int` wrap-around) through one score write |
| Score.OneNotificationPerWrite | Game/src/main/java/it/unisa/theneverendingrun/services/score/ScoreMetersListener.java:100-103 | over any run of events, one notification is added per meters change, the last one always carries the score, and the multiplier is untouched |
| Score.TenPointsPerMeter | Game/src/main/java/it/unisa/theneverendingrun/services/score/ScoreMetersListener.java:122-130 | with multiplier 1.0, N meters changes add exactly 10·N |
| Score.ScoreNeverDecreases | Game/src/main/java/it/unisa/theneverendingrun/services/score/ScoreMetersListener.java:122-130 | with a non-negative multiplier the score never decreases, and grows by at most N × gain |
| Score.ScoreMetersListener.constructor | Game/src/main/java/it/unisa/theneverendingrun/services/score/ScoreMetersListener.java:57-62 | score 0, multiplier 1.0, and one SCORE_CHANGED carrying 0 |
| Score.ScoreMetersListener.SetScore | Game/src/main/java/it/unisa/theneverendingrun/services/score/ScoreMetersListener.java:100-103 | the state becomes `WithScore` of the old one |
| Score.ScoreMetersListener.SetMultiplier | Game/src/main/java/it/unisa/theneverendingrun/services/score/ScoreMetersListener.java:109-111 | the multiplier becomes the given value rounded to tenths; the score and notifications are untouched |
| Score.ScoreMetersListener.Update | Game/src/main/java/it/unisa/theneverendingrun/services/score/ScoreMetersListener.java:122-130 | the state becomes `Updated` of the old one |
| GameStates.FirstIndex | Game/src/main/java/it/unisa/theneverendingrun/gameStates/KeyUpButtonsStrategy.java:15-17 | size − 1 (the last item), which is a valid index of a non-empty menu |
| GameStates.NextIndex | Game/src/main/java/it/unisa/theneverendingrun/gameStates/KeyUpButtonsStrategy.java:27-32 | i − 1 for i ≥ 1, and `firstIndex(size)` for i ≤ 0 (at i = INT_MIN, Java's i − 1 wraps to INT_MAX). For a valid index the result is valid and is its cyclic predecessor: (r + 1) mod size == i |
| GameStates.DecrementWraps | Game/src/main/java/it/unisa/theneverendingrun/gameStates/KeyUpButtonsStrategy.java:29 | Java's `index - 1` is exact except at INT_MIN, where it wraps to INT_MAX |
| GameStates.WrapsToFirstIndex | Game/src/main/java/it/unisa/theneverendingrun/gameStates/KeyUpButtonsStrategy.java:29-30 | UP on the first item lands where the first UP press lands |
| GameStates.VisitsEveryItemThenCycles | Game/src/main/java/it/unisa/theneverendingrun/gameStates/KeyUpButtonsStrategy.java:15-32 | from `firstIndex`, the k-th press reaches size − 1 − k, so every item is visited once, and after `size` presses the cycle returns to the start |

## Left out

- Floating-point arithmetic. Positions, sizes, distances and heights are whole numbers. The `(int)` casts of `float` values are not modelled: a distance in (−1, 0) that Java truncates to 0 is not 0 here. The rounding of `10 × (tenths / 10.0)` is taken as exact.
- Score.ScoreNeverDecreases: holds only while the score stays within the `int` range; once the 32-bit sum wraps, Java's score drops.
- Score.TenPointsPerMeter: holds only while the score stays within the `int` range, for the same reason.
- Score.RoundTenths: `Math.round` on values beyond the `long` range (where it saturates) is not modelled; the multiplier is a `real`.
- The `AtomicDouble` holder of the multiplier: it is a plain field, because the listener is used single-threaded.
- `ThreadLocalRandom`: draws are parameters, not a generator.
- `Gdx.graphics.getWidth()`: it is the `viewportWidth` parameter.
- The forest factory (not part of this model): the hero's measures and ground height are constructor parameters, and each obstacle's size and capabilities are a `shapes` parameter. Whether the factory wraps Jumpable obstacles in a `JumpableObstacle` is outside the model.
- `getObstacle`'s `default: return null` cannot be reached, because every enum constant has a case.
- The `Spawnable` interface (not part of this model) is one concrete class, `Spawnables.Obstacle`. Its `isXAxisVisible` is a field that the game loop (not modelled) keeps up to date.
- The order of the `SpawnableTypes` constants is taken to be the order of `getObstacle`'s switch (the enum is not part of this model).
- `CollisionUtils.areColliding` and `collisionSide`, the power-up strategies' `collect`, and the sword's `consume` are an `Oracle` of total functions.
- The side strategies, enemy states and `hero.die()` appear only as reactions in a returned trace; their effects on later collisions are not followed.
- The end phase's `sprite != null` filter: sprites are values and never null.
- `getSpriteImplType()` is the constructor of `Sprite`.
- The mini2Dx `intersects` / `intersection` are taken to have strict-overlap semantics, with area = overlap width × overlap height.
- The root `CollisionManager.wasOnObstacle` is static in Java; here it is a field of one manager object.
- The hero's collision box is taken to be its own position and size `(x, y, width, height)`; the hero class is not part of this model, and the LEFT snap's use of `getWidth()` relies on this.
- HeroStateTypes.CompleteMapHasEveryType: the model's animation maps are keyed by state types and cannot hold a `null` key. A Java `HashMap` can, so six types plus a `null` key pass the size check of `HeroMoveState` while one type is missing, and `setAnimation` then gives the hero a `null` animation for that type; this case is not modelled.
- The concrete hero states (`RunningState`, `onStand`, `onFall` and the rest) and the hero class (not part of this model) are left abstract. `onStand` and `onFall` are recorded as requests in the hero's effect trace. A `RunningState` reports `RUN`. `isMoving` is dx ≠ 0, and `isRight` / `isLeft` are the facing.
- Sound loading (`SoundUtils.getSound`) is the `SoundLoad` outcome. Playback (`Assets.sounds`, `sound.play()`) is a recorded effect. Animations are opaque values.
- `CollisionManager.wasOnObstacle.remove(toRemove)` in `clearOldObstacles`: it names a collection that the root `CollisionManager` does not have (CollisionManager.java:12 declares `wasOnObstacle` as a `private static boolean`), so it is not modelled.
- The deprecated `updateObstaclesPosition`.
- ObstaclesManager.SpawnableManager.ClearOldObstacles: with a non-empty list and no last obstacle Java throws `NullPointerException`; the model requires a last obstacle in that case.
- `MetersEventType` and `PowerUpType` constants other than METERS_CHANGED, SWORD and SHIELD are represented by name only (their enums are not part of this model).
- The frame loop, input polling, rendering and menus.
