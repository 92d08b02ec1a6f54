# rollgame: the per-tick simulation of `game.js`, in Dafny

rollgame is a browser side-scroller. The player runs, jumps and shoots
through a 2000-pixel level. Three kinds of enemy stand in the way: type A
shooters, a type B patroller and a type C boss that fires a fan of five
bullets. The player has three health points, and each hit is followed by
120 frames of invulnerability. Killing the boss wins the game and losing
the last point ends it. Everything that happens in one animation frame is
done by `gameLoop`, and this project models that loop and the objects it
drives:

- `Player.update`, `shoot`, `takeDamage` and `checkCollision`;
- the two bullet kinds;
- the three enemy behaviours and `Enemy.takeDamage`;
- the scrolling camera;
- the two bullet filter passes of the loop;
- `initGame`, `restartGameOnce` and the start button's `handleStartGameClick`;
- the on-screen buttons and the touch latch that feeds the player's input.

## How the model is organised

The script keeps its state in globals and objects that it updates in
place. The model follows that shape:

- `Game.World` is a class that holds the globals of the script: player,
  enemy and bullet lists, scroll, health, flags and input. Its methods
  (`Tick`, `InitGame`, `RestartGameOnce`, `HandleStartGameClick`, the
  input handlers) change those fields step by step, as the script does.
- `PlayerObj.Player` is a class with the fields of the player object, and
  `Update` changes them in place.
- `Frame.Session` is the whole state of the world as one value, and
  `World.Snapshot()` reads it off the fields. `Frame` builds one
  `gameLoop` call out of stage functions (`ScrollStage`, `PlayerStage`,
  `EnemyStage`, `BulletStage`, `HazardStage`, composed by `GameLoop`),
  and gives `initGame`, `restartGameOnce` and the start button as
  `NewSession`, `Restart` and `Start`.
- Each method of `World` that changes the session ensures that the new
  `Snapshot()` is the matching function of the old one: `Tick` is
  `GameLoop`; each phase method is its stage; `InitGame` is `NewSession`;
  `RestartGameOnce` is `Restart`; `HandleStartGameClick` is `Start`. The
  smaller methods are proved against the functions the stages are built
  from:
  - `PlayerPhysics.Step` for `Player.update`;
  - `Enemies.EnemyStep` and `Enemies.EnemyPass` for the enemy loop;
  - `Projectiles.BulletPass` and `Projectiles.HazardPass` for the two filters;
  - `Touch.PressAll` and `Touch.ReleaseAll` for the input handlers.

  What the game promises is then proved about those functions, by the
  `Frame` lemmas ending in `Rules` and the lemmas beside each function.
- Enemies and bullets are values (datatypes) held in `seq` fields of the
  world, and the input state is one `Input` value in a field of its own. The script does update these objects in
  place: `push` (game.js:267, 361, 371), `splice` (game.js:503),
  `enemy.update` (game.js:498) and `enemy.takeDamage` (game.js:503). But
  no enemy, bullet or obstacle is ever reachable from two places, so
  holding them as values in `seq` fields loses nothing.
- The health, the game-over flag and the player's invulnerability are
  grouped as `Damage.Vitals`. This lets "at most one health point is lost
  per frame" be stated on one value.

Randomness and trigonometry come in as parameters:

- `Math.random()` is a number `r` in [0, 1) carried by each `Enemies.Draw`
  and by the `timers` of `initGame`.
- The aimed velocity of a type A bullet and the five velocities of the
  boss's fan (`Math.atan2`, `Math.cos`, `Math.sin`) are likewise fields of
  `Draw`.

The viewport (`scaleRatio`, `gameWidth` and `gameHeight`) is a fixed
`Settings.Config` per session. Lengths are real numbers.

## Model

| member | source | states |
|---|---|---|
| Geometry.CheckCollision | game.js:273-283 | `colliding` holds exactly when the two boxes overlap strictly; `fromAbove` holds exactly when they overlap, the mover is falling, and its bottom edge one slack-scaled step back was at or above the other's top |
| Geometry.BulletTouchesIsOverlap | game.js:503 | the loop's inline bullet–enemy test is the same strict overlap as `checkCollision`, and overlap is symmetric |
| Geometry.TouchingEdgesDoNotCollide | game.js:279 | boxes that only share an edge do not collide |
| Camera.TargetScroll | game.js:486-488 | the target scroll lies in [0, levelWidth - gameWidth]; it is the player's x minus gameWidth/3.5 when that is in range, 0 when that is negative, and levelWidth - gameWidth when that is past the right end |
| Camera.Eased | game.js:489 | one easing step removes exactly a tenth of the distance to the target |
| Camera.EasedStaysInBounds | game.js:486-489 | easing stays between the current scroll and the target, so it stays in any interval that holds both |
| Camera.ScrollStaysInBounds | game.js:486-489 | a scroll within the level's bounds stays within them after a frame, wherever the player is |
| Damage.Hurt | game.js:270-272 | an invulnerable player is unchanged; otherwise the player loses one health point, becomes invulnerable for 120 frames, and the game is over exactly when it already was or health is now at most 0 |
| Damage.ContactLosesAtMostOne | game.js:498 | one contact check loses at most one point, leaves an invulnerable player untouched and keeps game-over in agreement with health |
| Damage.AtMostOneLossTransitive | game.js:498-509 | two runs of contact checks in a row together still lose at most one point |
| Enemies.EnemyStep | game.js:312-334 | which fields each enemy type changes: only B moves; A and C fire exactly when their timer runs out and the player is in range, spawning 1 or 5 bullets and resetting the timer into [120,180) or [150,230); the attack pose lasts 20 frames; health, kind and patrol origin are kept |
| Enemies.TakeDamage | game.js:374 | health drops by the amount and nothing else changes |
| Enemies.Fan | game.js:363-373 | the boss's spread is five bullets of size 10 from the boss's centre, one per supplied velocity, in order |
| Enemies.PatrolPreserved | game.js:325-326 | a patrol step keeps the patroller within its range plus two steps of its origin, and keeps the direction/offset pairing that bound relies on |
| Enemies.PatrolUpdate | game.js:324-327 | a type B step spawns nothing, advances the animation frame, flips direction only past the range, moves one step, or two steps when that step ends past the range (the second `this.x += this.vx` at game.js:326), and stays within range plus two steps |
| Enemies.PatrolRunBounded | game.js:325-326 | any number of patrol steps stays within range plus two steps of the origin |
| Enemies.PatrolStuckAtEdge | game.js:326 | a patroller that has overshot its range by one step flips direction on every frame and shuttles between two points at the edge |
| Enemies.EnemyStepKeepsPatrol | game.js:312-334 | every enemy update preserves the patrol invariant |
| Enemies.EnemyPassUpdatesInPlace | game.js:498 | after the enemy loop, enemy i is exactly enemy i updated once; the loop removes and reorders nothing |
| Enemies.EnemyPassLength | game.js:498 | the enemy loop keeps the number of enemies |
| Enemies.EnemyPassLosesAtMostOne | game.js:498 | the contact checks of the whole enemy loop lose at most one health point |
| Enemies.EnemyPassKeepsPatrols | game.js:498 | the enemy loop keeps every enemy's patrol invariant |
| Level.LevelObstacles | game.js:411-415 | the level has three obstacles with positive sizes, at unscaled x 350, 650 and 1000, with tops 100, 160 and 80 units above `gameHeight / scaleRatio` |
| Level.LevelEnemies | game.js:417-422 | the level has four enemies: A, B, A, then the boss C, with health 2, 1, 2 and 15 at full strength; none is shooting; shoot timers start in [100, 200); each starts at its patrol origin, at unscaled x 550, 850, 1150 and 1600, with its top 10 units plus its unscaled height above `gameHeight / scaleRatio` |
| Projectiles.Advance | game.js:294 | a player bullet moves by its velocity along x only |
| Projectiles.AdvanceHazard | game.js:382 | an enemy bullet moves by its velocity on both axes |
| Projectiles.FirstHit | game.js:503 | the index found is the first enemy the bullet touches, or none is touched |
| Projectiles.BossesSplice | game.js:503 | removing one enemy lowers the boss count by one exactly when it is a boss |
| Projectiles.BulletMisses | game.js:501-505 | a bullet that touches no enemy changes no enemy and is kept exactly when it is still on screen horizontally |
| Projectiles.BulletHitsFirst | game.js:503 | a bullet that touches enemy k first is dropped and damages only enemy k; at 1 health that enemy is removed, the rest keep their order, and the win flag is set exactly when it was a boss; otherwise it loses one point |
| Projectiles.BulletStepCounts | game.js:501-505 | one bullet removes at most one enemy; the win flag becomes set exactly when a boss disappears; a kept bullet is on screen; patrol invariants survive |
| Projectiles.BulletPassCounts | game.js:501-505 | the bullet filter keeps only on-screen bullets, removes at most one enemy per bullet, and sets the win flag exactly when the boss count falls |
| Projectiles.HazardStepRules | game.js:506-509 | an enemy bullet that touches a vulnerable player deals one `takeDamage` and is dropped; one that does not touch it, or meets an invulnerable player, leaves the vitals unchanged and is kept exactly when on screen |
| Projectiles.HazardPassLosesAtMostOne | game.js:506-509 | the enemy-bullet filter loses at most one health point and keeps only on-screen bullets |
| PlayerPhysics.Moved | game.js:219-227 | velocity follows the buttons (right wins); x is the moved x, or the scroll when that is further left; gravity is added to vy, and the player snaps to the ground line with vy 0 exactly when the new y is at or below it while not rising, and otherwise moves by the new vy; timers are untouched |
| PlayerPhysics.Muzzle | game.js:261-267 | a shot travels in the facing direction at bulletSpeed; it is 12 by 6 scaled pixels, starts at 80% of the player's width when facing right and at 20% when facing left, at 40% of its height |
| PlayerPhysics.CooldownTick | game.js:242-243 | a shot fires exactly when shoot is latched and the cooldown is at most 1; it then resets the cooldown to 18, and otherwise the cooldown counts down to 0 |
| PlayerPhysics.ObstacleStepResolves | game.js:229-238 | an obstacle pass either leaves the player alone or leaves it not overlapping that obstacle; a landing from above puts it on top; no collision changes nothing |
| PlayerPhysics.ObstacleStepKeeps | game.js:230-237 | one obstacle keeps the player grounded if it was, only zeroes vx, and leaves facing, pose and timers alone |
| PlayerPhysics.CollideKeeps | game.js:229-238 | the whole obstacle pass has the same properties |
| PlayerPhysics.JumpRule | game.js:240 | the player jumps exactly when jump is latched and it stands on something after collisions; a jump sets vy to jumpStrength and leaves the ground, and otherwise vertical state is unchanged |
| PlayerPhysics.ShotRule | game.js:242-244 | over a whole update, a shot happens exactly when the latch is set and the cooldown is at most 1; the cooldown becomes 18, the player is in the shooting pose for 14 more frames, and the bullet flies the way the player faces |
| PlayerPhysics.TriggersFire | game.js:242-244 | the same shot rule for the trigger stage alone |
| PlayerPhysics.InvulnerabilityRule | game.js:246 | invulnerability counts down by one per update and ends when the timer reaches 0; a vulnerable player stays vulnerable |
| PlayerPhysics.TriggersGuard | game.js:246 | the same countdown for the trigger stage alone |
| PlayerPhysics.LeftEdgeHolds | game.js:219-224 | holding left at the left edge of the view keeps the player at the edge, facing left |
| PlayerPhysics.CooldownRun | game.js:242-243 | one entry per update in a run of updates |
| PlayerPhysics.NoShotWithin | game.js:242-243 | with cooldown c, none of the next c-1 updates fires |
| PlayerPhysics.ShotsSpaced | game.js:242-243 | any two shots are at least 18 updates apart |
| PlayerObj.Player.constructor | game.js:207-216 | a new player is at rest, facing right, not on the ground, with all timers at 0 |
| PlayerObj.Player.Update | game.js:217-247 | `update` changes the player's fields to `Step` of the old state; it reports whether the jump latch was consumed and the bullet `shoot` pushes |
| PlayerObj.Player.Move | game.js:219-227 | the button, integration, left-clamp and ground stage, in place |
| PlayerObj.Player.Steer | game.js:219-223 | the buttons set vx and facing, and x moves by vx |
| PlayerObj.Player.Fall | game.js:223-227 | gravity, the left clamp and the ground snap |
| PlayerObj.Player.ResolveObstacles | game.js:229-238 | the obstacle loop, in array order, equals `Collide` |
| PlayerObj.Player.PushOut | game.js:230-237 | one obstacle's landing or side push |
| PlayerObj.Player.RunTriggers | game.js:239-246 | jump, shot, pose and invulnerability stages in source order |
| PlayerObj.Player.Jump | game.js:240 | jumps exactly when the latch is set and the player is on the ground |
| PlayerObj.Player.Fire | game.js:242-243 | the cooldown and shoot stage; the bullet comes from the player's position before the stage |
| PlayerObj.Player.CountDownPose | game.js:244 | the shooting pose counts down and ends at 0 |
| PlayerObj.Player.CountDownGuard | game.js:246 | the invulnerability timer counts down and ends at 0 |
| PlayerObj.Player.TakeDamage | game.js:270-272 | `takeDamage` on the player's fields and the two globals it writes equals `Hurt` |
| Touch.ButtonAreas | game.js:151-165 | four square buttons of 13% of the smaller canvas side; left, right and shoot share a row in that order from left to right, with jump in the shoot column and not below it; every button keeps a margin from the top and left edges; where no clamping applies, shoot sits a margin and half a button in from the right edge and two margins up from the bottom, and left, right and jump are one button and one margin away from it |
| Touch.RightButtonOverhangs | game.js:155-162 | on a landscape canvas, half of the right button lies past the canvas's right edge |
| Touch.ButtonAt | game.js:444-447 | a point selects the first of left, right, shoot, jump whose rectangle holds it, border included as `isPointInRect` has it |
| Touch.Consume | game.js:240-243 | a jump clears the jump latch and the jump button; a shot clears the shoot latch and the shoot button; nothing else changes |
| Touch.PressKeepsConsistent | game.js:441-449 | a new touch keeps every held button backed by an active touch, releases nothing and clears no latch |
| Touch.PressOnKeepsConsistent | game.js:444-447 | the same for a touch that lands on a button |
| Touch.ReleaseKeepsConsistent | game.js:450-455 | lifting a touch keeps the invariant, presses nothing, leaves the latches set and forgets the touch |
| Touch.PressAllKeepsConsistent | game.js:441-449 | a whole start event keeps the invariant and releases nothing |
| Touch.ReleaseAllKeepsConsistent | game.js:450-455 | a whole end event keeps the invariant and the latches, and forgets every touch it lists |
| Touch.ConsumeKeepsConsistent | game.js:240-243 | clearing latches after a jump or shot keeps the invariant |
| Touch.ReleaseButtons | game.js:151-165 | rebuilding the buttons leaves none held, keeps the latches and the remembered touches, and so keeps the invariant |
| Touch.LiftingOneOfTwoFingersReleases | game.js:443-453 | with two fingers on the left button, lifting one releases the button while the other is still down |
| Frame.NewSessionHolds | game.js:398-425 | the session `initGame` builds satisfies the world invariant, with full health, no game over or won, one boss among four enemies, three obstacles, and the player standing on the ground line |
| Frame.PlayerStageRules | game.js:497 | `player.update` keeps the invariant, adds at most one bullet, keeps an invulnerable player invulnerable exactly when its timer was above 1, and changes none of the health, the game-over flag, the enemies, the hazards, the obstacles, the scroll, the score or the other flags |
| Frame.EnemyStageRules | game.js:498 | the enemy loop keeps the invariant, the enemy and boss counts, loses at most one point, and changes nothing but the enemies, the hazards and the vitals: the rest of the player, the player's bullets, the obstacles, the scroll, the score, the flags and the input stay |
| Frame.EnemyPassRules | game.js:498 | the enemy loop keeps the length, the boss count and the patrol invariants, and loses at most one point |
| Frame.BulletStageRules | game.js:501-505 | the bullet filter keeps the invariant and the vitals, never adds an enemy or a bullet, keeps only on-screen bullets, and sets the win flag exactly when it was set or the boss count falls |
| Frame.HazardStageRules | game.js:506-509 | the enemy-bullet filter keeps the invariant, loses at most one point, keeps only on-screen hazards, and changes nothing but the hazards and the vitals: the rest of the player and every other field stay |
| Frame.GameLoopRules | game.js:480-509 | one `gameLoop` keeps the invariant, the obstacles and the score; an ended game only stops running; otherwise the game runs, the camera eases toward its target, at most one health point is lost and only with invulnerability following, none is lost (and game-over is unchanged) when the player is invulnerable with more than one frame left, no enemy is added, and the game is won exactly when a boss was destroyed |
| Frame.RestartRules | game.js:614-624 | a restart keeps the invariant and the input, happens only to an ended game no frame is running, and then yields a running game with full health and the boss in place |
| Frame.StartRules | game.js:560-611 | a start keeps the invariant, happens only when the assets are ready and no started game is running, and otherwise leaves the session as it is; a start yields a running game with full health, the boss in place, the fixed obstacles, no bullets, no scroll, and every button released with the latches and touches kept |
| Game.World.constructor | game.js:119-130 | the globals start empty, with health 3, no scroll, and no game running or ended |
| Game.World.InitGame | game.js:398-425 | `initGame` leaves the session equal to `NewSession`: flags, health, score, scroll and bullets reset, a fresh player at (100, gameHeight - 90) scaled, the fixed level loaded; the running and started flags and the input are not touched; the world invariant holds |
| Game.World.LoadLevel | game.js:411-422 | the obstacles and enemies become the fixed level |
| Game.World.Tick | game.js:480-509 | the new session is `GameLoop` of the old one, the started flag stays, and the world invariant is kept |
| Game.World.ScrollAndUpdatePlayer | game.js:485-497 | the new session is `PlayerStage` of `ScrollStage` of the old one |
| Game.World.EnemyPhase | game.js:498 | the new session is `EnemyStage` of the old one |
| Game.World.BulletPhase | game.js:501-505 | the new session is `BulletStage` of the old one |
| Game.World.HazardPhase | game.js:506-509 | the new session is `HazardStage` of the old one |
| Game.World.RestartGameOnce | game.js:614-624 | the new session is `Restart` of the old one: a click restarts exactly when no frame is running and the game has ended, and then every field is that of `NewSession` with a running game; otherwise nothing changes; the input and the started flag stay either way |
| Game.World.HandleStartGameClick | game.js:560-611 | the new session is `Start` of the old one: a click starts a fresh running session, with the buttons released by the canvas resize, exactly when the assets are ready and no started game is running; then the started flag is set; otherwise nothing changes |
| Game.World.HandleResize | game.js:54-94 | a resize with the viewport unchanged releases the four buttons and keeps the invariant |
| Game.World.TakeDamage | game.js:270-272 | the world's vitals become `Hurt` of the old ones |
| Game.World.ScrollCamera | game.js:485-489 | the scroll becomes one easing step toward the player's target |
| Game.World.UpdatePlayer | game.js:497 | the player becomes `Step` of its old state under the current buttons and latches; a shot is appended to the bullets; consumed latches are cleared |
| Game.World.UpdateEnemy | game.js:312-334 | enemy i becomes its `EnemyStep` update, in place; the bullets it fires are appended in order |
| Game.World.ShootSpread | game.js:363-373 | the loop appends the five fan bullets in order |
| Game.World.VisitEnemy | game.js:498 | one iteration of the enemy loop: update, then one contact check against the updated enemy |
| Game.World.UpdateEnemies | game.js:498 | the enemy loop equals `EnemyPass` on the enemies, the spawned bullets and the vitals |
| Game.World.UpdateBullets | game.js:501-505 | the bullet filter equals `BulletPass` |
| Game.World.StepBullet | game.js:502-504 | one bullet's move, first-hit search, damage and removal equal `BulletStep` |
| Game.World.UpdateEnemyBullets | game.js:506-509 | the enemy-bullet filter equals `HazardPass` |
| Game.World.StepHazard | game.js:507-508 | one enemy bullet's move, contact and keep test equal `HazardStep` |
| Game.World.HandleInputStart | game.js:441-449 | a start event equals `PressAll` over its touches and keeps the invariant |
| Game.World.HandleInputEnd | game.js:450-455 | an end event equals `ReleaseAll` over its touches and keeps the invariant |

### Where the code and its documented design differ

The model follows the code in each of these cases.

- **Patrol (game.js:326).** Past its range, a type B enemy flips
  direction but adds its old velocity a second time. It therefore ends
  one step further out rather than back in range. The bound that holds is
  two steps beyond the range, not one (`Enemies.PatrolRunBounded`). A
  patroller at the edge then flips on every frame
  (`Enemies.PatrolStuckAtEdge`).
- **Both direction buttons held (game.js:220-221).** The right button
  wins; velocity is not zero.
- **Shooting pose (game.js:243-244).** The pose timer is set to 15 and
  counted down in the same update, so 14 frames remain after a shot.
- **Units (game.js:176-177, game.js:413-422).** Obstacle and enemy
  positions are passed in unscaled units, while their sizes are scaled
  by `scaleRatio`. They are not both device-pixel lengths.
- **Right button (game.js:158).** It is placed one button and one margin
  right of the shoot button, so it overhangs the canvas edge.
- **Touch release (game.js:453).** Releasing a touch releases its button
  even when another touch is still on it.

## Left out

- Drawing, images, sounds, background music and the audio unlock: they
  produce no state the simulation reads.
- In `handleStartGameClick`, the `isStarting` guard (game.js:562, 572,
  610): the function sets it and clears it again within one synchronous
  call, so no click can find it set. The asset count is the `assetsReady`
  parameter. Its first `gameLoop()` call is left out, as for
  `restartGameOnce` below.
- `resizeCanvas` (game.js:54-94, run on every window resize, game.js:115,
  and by the start button, game.js:586): only its effect on the input is
  modelled (`Game.World.HandleResize`, `Touch.ReleaseButtons`: every
  button released). The new viewport size, scale ratio and button
  positions it computes are not: the viewport and the button layout are a
  fixed `Config` for a session. Its end-screen redraw only draws.
- `requestAnimationFrame` scheduling, and the synchronous `gameLoop()`
  call inside `restartGameOnce`. `Game.World.RestartGameOnce` leaves that
  first frame to the caller's next `Tick`.
- `getCanvasCoordinates`: event coordinates arrive already converted, or
  as `None` when the browser gave none.
- `Math.random`, `Math.atan2`, `Math.cos` and `Math.sin`: they are
  parameters (`Draw`, `timers`). The aimed velocities are therefore not
  constrained to point at the player or to have the enemy bullet speed.
- Floating-point rounding: positions and velocities are real numbers.
- The player's `runFrame` (game.js:213) and the global `frameCount`
  (game.js:249-252), used only to pick the running image, and the enemy's
  `shootCooldown` (game.js:308), which is set but never read.
- The enemy bullet speed `enemyBulletSpeed` (game.js:137, read at
  game.js:360 and 370): the bullet velocities are `Draw` parameters, so
  the model does not tie them to this speed.
- `score`: it is reset by `initGame` and never changed by the simulation.
- `Game.World.Tick`: on an ended game it does not model `displayEndScreen`,
  which only draws.
- The second clearing of `gameOver` and `gameWon` in
  `handleStartGameClick` (game.js:604-605): `initGame` has already cleared
  them, so the model does not repeat the writes.
- `console.log` and the `try`/`catch` around coordinate conversion.
