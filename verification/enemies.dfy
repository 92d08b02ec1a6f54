/** Enemies: the three behaviours of `Enemy.update` and `Enemy.takeDamage`. */
module Enemies {
  import opened Settings
  import opened Geometry
  import opened Damage

  /** A: stationary shooter, B: patroller, C: boss with a five-shot fan. */
  datatype Kind = A | B | C

  datatype Velocity = Velocity(vx: real, vy: real)

  /** A hazard projectile fired by an enemy. */
  datatype EnemyBullet = EnemyBullet(box: Box, vel: Velocity)

  datatype Enemy = Enemy(
    box: Box, kind: Kind, health: int, initialHealth: int,
    shootTimer: real, vx: real, moveDirection: int, moveRange: real, initialX: real,
    animationFrame: int, actionFrameTimer: int, isShooting: bool)

  /** The values the browser supplies to one enemy update: `r` is the
      `Math.random()` draw used if the enemy fires, `aimed` the velocity of the
      single aimed shot of a type-A enemy and `fan` the five velocities of a
      type-C spread (both come from `atan2`, `cos` and `sin`). */
  datatype Draw = Draw(r: real, aimed: Velocity, fan: seq<Velocity>)

  predicate ValidDraw(d: Draw) {
    0.0 <= d.r < 1.0 && |d.fan| == 5
  }

  /** Result of one enemy update: the new enemy and the hazards it fired. */
  datatype EnemyTick = EnemyTick(enemy: Enemy, spawned: seq<EnemyBullet>)

  function Abs(a: real): real { if a < 0.0 then -a else a }

  /** Distance between the centres of the player box and the enemy box. */
  function HorizontalDist(e: Box, p: Box): real { Abs((e.x + e.w / 2.0) - (p.x + p.w / 2.0)) }
  function VerticalDiff(e: Box, p: Box): real { Abs((p.y + p.h / 2.0) - (e.y + e.h / 2.0)) }

  /** Hazard spawned at the enemy's centre. */
  function Hazard(e: Box, size: real, v: Velocity): EnemyBullet {
    EnemyBullet(Box(e.x + e.w / 2.0, e.y + e.h / 2.0, size, size), v)
  }

  /** The five hazards of `shootSpread`, in firing order. */
  function Fan(e: Box, cfg: Config, fan: seq<Velocity>): (r: seq<EnemyBullet>)
    ensures |r| == |fan|
    ensures forall i :: 0 <= i < |fan| ==> r[i] == Hazard(e, 10.0 * cfg.scale, fan[i])
  {
    if |fan| == 0 then [] else [Hazard(e, 10.0 * cfg.scale, fan[0])] + Fan(e, cfg, fan[1..])
  }

  /** The patrol move of a type-B enemy, as the source writes it: after the
      step, if the enemy is more than `range` away from its origin the direction
      flips and the step made with the old velocity is applied once more. */
  function PatrolX(x: real, dir: int, origin: real, range: real, step: real): real {
    var vx := step * dir as real;
    var x1 := x + vx;
    if Abs(x1 - origin) > range then x1 + vx else x1
  }

  function PatrolDir(x: real, dir: int, origin: real, range: real, step: real): int {
    var x1 := x + step * dir as real;
    if Abs(x1 - origin) > range then -dir else dir
  }

  /** The states a patrol can be in: moving right anywhere up to the right edge
      (and up to two steps past the left edge), or the mirror image. */
  predicate PatrolOk(x: real, dir: int, origin: real, range: real, step: real) {
    var d := x - origin;
    (dir == 1 && -range - 2.0 * step <= d <= range)
    || (dir == -1 && -range <= d <= range + 2.0 * step)
  }

  /** The patrol keeps its states: the enemy never gets more than two steps
      (not one) past either end of its range. */
  lemma PatrolPreserved(x: real, dir: int, origin: real, range: real, step: real)
    requires range >= 0.0 && step > 0.0
    requires PatrolOk(x, dir, origin, range, step)
    ensures PatrolOk(PatrolX(x, dir, origin, range, step), PatrolDir(x, dir, origin, range, step), origin, range, step)
    ensures Abs(PatrolX(x, dir, origin, range, step) - origin) <= range + 2.0 * step
  {
  }

  /** Whether this update fires: the shoot timer of a type-A or type-C enemy
      runs out while the player is in range (a band of 0.6 viewport heights and
      0.9 viewport widths for A, 1.1 viewport widths for C). */
  predicate Fires(e: Enemy, p: Box, cfg: Config) {
    match e.kind
    case A => e.shootTimer - 1.0 <= 0.0 && VerticalDiff(e.box, p) < cfg.gameHeight * 0.6
              && HorizontalDist(e.box, p) < cfg.gameWidth * 0.9
    case B => false
    case C => e.shootTimer - 1.0 <= 0.0 && HorizontalDist(e.box, p) < cfg.gameWidth * 1.1
  }

  /** `Enemy.update` with the browser's draws supplied as `d`; `p` is the player's box. */
  function EnemyStep(e: Enemy, p: Box, d: Draw, cfg: Config): (t: EnemyTick)
    requires ValidDraw(d)
    ensures t.enemy.box.y == e.box.y && t.enemy.box.w == e.box.w && t.enemy.box.h == e.box.h
    ensures t.enemy.kind == e.kind && t.enemy.health == e.health && t.enemy.initialHealth == e.initialHealth
    ensures t.enemy.moveRange == e.moveRange && t.enemy.initialX == e.initialX
    ensures e.kind != B ==> t.enemy.box == e.box
    ensures |t.spawned| == (if !Fires(e, p, cfg) then 0 else if e.kind == A then 1 else 5)
    ensures Fires(e, p, cfg) ==> t.enemy.isShooting && t.enemy.actionFrameTimer == ActionFrameDuration
    ensures Fires(e, p, cfg) && e.kind == A ==> 120.0 <= t.enemy.shootTimer < 180.0
    ensures Fires(e, p, cfg) && e.kind == C ==> 150.0 <= t.enemy.shootTimer < 230.0
    ensures !Fires(e, p, cfg) ==> t.enemy.actionFrameTimer == e.actionFrameTimer - 1
    ensures !Fires(e, p, cfg) ==> (t.enemy.isShooting <==> e.isShooting && e.actionFrameTimer - 1 > 0)
    ensures !Fires(e, p, cfg) && e.kind != B ==> t.enemy.shootTimer == e.shootTimer - 1.0
  {
    var timer := e.actionFrameTimer - 1;
    var e1 := e.(actionFrameTimer := timer, isShooting := if timer <= 0 then false else e.isShooting);
    var dist := HorizontalDist(e.box, p);
    match e.kind
    case A =>
      var st := e1.shootTimer - 1.0;
      if st <= 0.0 && VerticalDiff(e.box, p) < cfg.gameHeight * 0.6 && dist < cfg.gameWidth * 0.9 then
        EnemyTick(e1.(shootTimer := 120.0 + d.r * 60.0, isShooting := true, actionFrameTimer := ActionFrameDuration),
                  [Hazard(e.box, 8.0 * cfg.scale, d.aimed)])
      else
        EnemyTick(e1.(shootTimer := st), [])
    case B =>
      var step := 2.0 * cfg.scale;
      var x' := PatrolX(e.box.x, e.moveDirection, e.initialX, e.moveRange, step);
      var dir' := PatrolDir(e.box.x, e.moveDirection, e.initialX, e.moveRange, step);
      EnemyTick(e1.(box := e.box.(x := x'), vx := step * e.moveDirection as real,
                    moveDirection := dir', animationFrame := e.animationFrame + 1), [])
    case C =>
      var st := e1.shootTimer - 1.0;
      if st <= 0.0 && dist < cfg.gameWidth * 1.1 then
        EnemyTick(e1.(shootTimer := 150.0 + d.r * 80.0, isShooting := true, actionFrameTimer := ActionFrameDuration),
                  Fan(e.box, cfg, d.fan))
      else
        EnemyTick(e1.(shootTimer := st), [])
  }

  /** `Enemy.takeDamage`: health drops by `amount`, with no floor. */
  function TakeDamage(e: Enemy, amount: int): (r: Enemy)
    ensures r.health == e.health - amount
    ensures r == e.(health := r.health)
  {
    e.(health := e.health - amount)
  }

  /** The patrol state a well-formed enemy keeps between updates. */
  predicate PatrolInvariant(e: Enemy, cfg: Config) {
    e.kind == B ==> e.moveRange >= 0.0 && PatrolOk(e.box.x, e.moveDirection, e.initialX, e.moveRange, 2.0 * cfg.scale)
  }

  /** A type-B update flips `moveDirection` exactly when the step ends more than
      `moveRange` from the origin, advances the animation by one frame, fires
      nothing and keeps the patrol invariant. */
  lemma PatrolUpdate(e: Enemy, p: Box, d: Draw, cfg: Config)
    requires ValidDraw(d) && cfg.Valid() && e.kind == B && PatrolInvariant(e, cfg)
    ensures var t := EnemyStep(e, p, d, cfg);
      && t.spawned == []
      && t.enemy.animationFrame == e.animationFrame + 1
      && (t.enemy.moveDirection == -e.moveDirection
          <==> Abs(e.box.x + 2.0 * cfg.scale * e.moveDirection as real - e.initialX) > e.moveRange)
      && (var v := 2.0 * cfg.scale * e.moveDirection as real;
          t.enemy.box.x == if Abs(e.box.x + v - e.initialX) > e.moveRange then e.box.x + 2.0 * v else e.box.x + v)
      && PatrolInvariant(t.enemy, cfg)
      && Abs(t.enemy.box.x - e.initialX) <= e.moveRange + 4.0 * cfg.scale
  {
    PatrolPreserved(e.box.x, e.moveDirection, e.initialX, e.moveRange, 2.0 * cfg.scale);
  }

  /** Position and direction after `n` patrol moves. */
  function PatrolRun(x: real, dir: int, origin: real, range: real, step: real, n: nat): (real, int)
    decreases n
  {
    if n == 0 then (x, dir)
    else PatrolRun(PatrolX(x, dir, origin, range, step), PatrolDir(x, dir, origin, range, step), origin, range, step, n - 1)
  }

  /** From its spawn point (origin, moving right) a patroller stays within two
      steps of its range for any number of updates. */
  lemma {:induction false} PatrolRunBounded(x: real, dir: int, origin: real, range: real, step: real, n: nat)
    requires range >= 0.0 && step > 0.0 && PatrolOk(x, dir, origin, range, step)
    ensures var (x', dir') := PatrolRun(x, dir, origin, range, step, n);
      PatrolOk(x', dir', origin, range, step) && Abs(x' - origin) <= range + 2.0 * step
    decreases n
  {
    PatrolPreserved(x, dir, origin, range, step);
    if n > 0 {
      PatrolRunBounded(PatrolX(x, dir, origin, range, step), PatrolDir(x, dir, origin, range, step), origin, range, step, n - 1);
    }
  }

  /** The correction at the range edge does not bring the patroller back: with
      range 100 and step 2, an enemy moving right at the edge goes to 104,
      then back to 100 moving right again, and repeats this forever. */
  lemma PatrolStuckAtEdge()
    ensures PatrolX(100.0, 1, 0.0, 100.0, 2.0) == 104.0 && PatrolDir(100.0, 1, 0.0, 100.0, 2.0) == -1
    ensures PatrolX(104.0, -1, 0.0, 100.0, 2.0) == 100.0 && PatrolDir(104.0, -1, 0.0, 100.0, 2.0) == 1
    ensures PatrolRun(100.0, 1, 0.0, 100.0, 2.0, 2) == (100.0, 1)
  {
  }

  /** Result of the enemy part of a tick. */
  datatype Wave = Wave(enemies: seq<Enemy>, spawned: seq<EnemyBullet>, vitals: Vitals)

  predicate ValidDraws(ds: seq<Draw>) {
    forall d | d in ds :: ValidDraw(d)
  }

  /** The `enemies.forEach` of the game loop: each enemy in order is updated,
      its hazards are appended, and then the player, if not invulnerable and
      touching the updated enemy, takes damage. */
  function EnemyPass(es: seq<Enemy>, ds: seq<Draw>, player: Box, v: Vitals, cfg: Config): Wave
    requires |ds| == |es| && ValidDraws(ds)
    decreases |es|
  {
    if |es| == 0 then Wave([], [], v)
    else
      var n := |es| - 1;
      var w := EnemyPass(es[..n], ds[..n], player, v, cfg);
      var t := EnemyStep(es[n], player, ds[n], cfg);
      Wave(w.enemies + [t.enemy], w.spawned + t.spawned, Contact(w.vitals, Overlaps(player, t.enemy.box)))
  }

  /** Every update keeps the patrol invariant. */
  lemma EnemyStepKeepsPatrol(e: Enemy, p: Box, d: Draw, cfg: Config)
    requires ValidDraw(d) && cfg.Valid() && PatrolInvariant(e, cfg)
    ensures PatrolInvariant(EnemyStep(e, p, d, cfg).enemy, cfg)
  {
    if e.kind == B {
      PatrolUpdate(e, p, d, cfg);
    }
  }

  /** The enemy pass updates every enemy in place, in array order: enemy `i`
      of the result is the update of enemy `i`. */
  lemma {:induction false} EnemyPassUpdatesInPlace(es: seq<Enemy>, ds: seq<Draw>, player: Box, v: Vitals, cfg: Config, i: nat)
    requires |ds| == |es| && ValidDraws(ds) && i < |es|
    ensures var w := EnemyPass(es, ds, player, v, cfg);
      |w.enemies| == |es| && w.enemies[i] == EnemyStep(es[i], player, ds[i], cfg).enemy
    decreases |es|
  {
    var n := |es| - 1;
    assert forall d | d in ds[..n] :: d in ds;
    EnemyPassLength(es[..n], ds[..n], player, v, cfg);
    if i < n {
      EnemyPassUpdatesInPlace(es[..n], ds[..n], player, v, cfg, i);
      assert es[..n][i] == es[i] && ds[..n][i] == ds[i];
    }
  }

  lemma {:induction false} EnemyPassLength(es: seq<Enemy>, ds: seq<Draw>, player: Box, v: Vitals, cfg: Config)
    requires |ds| == |es| && ValidDraws(ds)
    ensures |EnemyPass(es, ds, player, v, cfg).enemies| == |es|
    decreases |es|
  {
    if |es| > 0 {
      var n := |es| - 1;
      assert forall d | d in ds[..n] :: d in ds;
      EnemyPassLength(es[..n], ds[..n], player, v, cfg);
    }
  }

  /** However many enemies touch the player in one pass, health drops by at
      most one, and not at all if the player starts the pass invulnerable. */
  lemma {:induction false} EnemyPassLosesAtMostOne(es: seq<Enemy>, ds: seq<Draw>, player: Box, v: Vitals, cfg: Config)
    requires |ds| == |es| && ValidDraws(ds)
    ensures AtMostOneLoss(v, EnemyPass(es, ds, player, v, cfg).vitals)
    decreases |es|
  {
    if |es| > 0 {
      var n := |es| - 1;
      assert forall d | d in ds[..n] :: d in ds;
      var w := EnemyPass(es[..n], ds[..n], player, v, cfg);
      var t := EnemyStep(es[n], player, ds[n], cfg);
      EnemyPassLosesAtMostOne(es[..n], ds[..n], player, v, cfg);
      ContactLosesAtMostOne(w.vitals, Overlaps(player, t.enemy.box));
      AtMostOneLossTransitive(v, w.vitals, Contact(w.vitals, Overlaps(player, t.enemy.box)));
    }
  }

  /** Patrols stay well-formed through the enemy pass. */
  lemma EnemyPassKeepsPatrols(es: seq<Enemy>, ds: seq<Draw>, player: Box, v: Vitals, cfg: Config)
    requires |ds| == |es| && ValidDraws(ds) && cfg.Valid()
    requires forall e | e in es :: PatrolInvariant(e, cfg)
    ensures forall e | e in EnemyPass(es, ds, player, v, cfg).enemies :: PatrolInvariant(e, cfg)
  {
    var w := EnemyPass(es, ds, player, v, cfg);
    EnemyPassLength(es, ds, player, v, cfg);
    forall i | 0 <= i < |es|
      ensures PatrolInvariant(w.enemies[i], cfg)
    {
      assert es[i] in es && ds[i] in ds;
      EnemyPassUpdatesInPlace(es, ds, player, v, cfg, i);
      EnemyStepKeepsPatrol(es[i], player, ds[i], cfg);
    }
  }
}
