/** The pure specification of one `Player.update`: steering, gravity, the
    left clamp, the ground snap, obstacle landing and side push, and the jump,
    shoot, shooting-pose and invulnerability timers. */
module PlayerPhysics {
  import opened Settings
  import opened Geometry
  import opened Projectiles

  datatype PlayerState = PlayerState(
    x: real, y: real, vx: real, vy: real,
    onGround: bool, facingRight: bool, shooting: bool,
    shootingCooldown: int, invulnerable: bool, invulnerableTimer: int, shootFrameTimer: int)

  /** What the update reads of the input: the left and right buttons are held
      states, `jump` and `shoot` are latched presses. */
  datatype Controls = Controls(left: bool, right: bool, jump: bool, shoot: bool)

  function BoxOf(s: PlayerState, cfg: Config): Box {
    Box(s.x, s.y, cfg.PlayerSize(), cfg.PlayerSize())
  }

  /** Horizontal velocity chosen by the buttons; right wins when both are held. */
  function SteerVx(c: Controls, cfg: Config): real {
    if c.right then cfg.PlayerSpeed() else if c.left then -cfg.PlayerSpeed() else 0.0
  }

  /** Steering, integration (x, then vy, then y), the clamp to the scroll
      position and the ground snap. */
  function Moved(s: PlayerState, c: Controls, scroll: real, cfg: Config): (r: PlayerState)
    ensures r.vx == SteerVx(c, cfg)
    ensures r.facingRight == (if c.right then true else if c.left then false else s.facingRight)
    ensures r.x >= scroll && (r.x == scroll || r.x == s.x + r.vx)
    ensures r.x == (if s.x + r.vx < scroll then scroll else s.x + r.vx)
    ensures var vy := s.vy + cfg.Gravity();
      && (r.onGround <==> s.y + vy >= cfg.GroundY() && vy >= 0.0)
      && (r.onGround ==> r.y == cfg.GroundY() && r.vy == 0.0)
      && (!r.onGround ==> r.y == s.y + vy && r.vy == vy)
    ensures r.vy >= 0.0 ==> r.y <= cfg.GroundY()
    ensures r.shootingCooldown == s.shootingCooldown && r.invulnerable == s.invulnerable
    ensures r.invulnerableTimer == s.invulnerableTimer && r.shootFrameTimer == s.shootFrameTimer
    ensures r.shooting == s.shooting
  {
    Fallen(Steered(s, c, cfg), scroll, cfg)
  }

  /** The buttons set the horizontal velocity and facing, and the player moves by it. */
  function Steered(s: PlayerState, c: Controls, cfg: Config): PlayerState {
    var vx := SteerVx(c, cfg);
    s.(x := s.x + vx, vx := vx, facingRight := if c.right then true else if c.left then false else s.facingRight)
  }

  /** Gravity, the vertical move, the clamp to the scroll position and the ground snap. */
  function Fallen(s: PlayerState, scroll: real, cfg: Config): PlayerState {
    var vy := s.vy + cfg.Gravity();
    var y := s.y + vy;
    var x := if s.x < scroll then scroll else s.x;
    if y >= cfg.GroundY() && vy >= 0.0 then s.(x := x, y := cfg.GroundY(), vy := 0.0, onGround := true)
    else s.(x := x, y := y, vy := vy, onGround := false)
  }

  /** The obstacle callback of the `forEach`: land on top when falling onto it,
      otherwise, when not rising, push the player out of its left or right side
      in the direction of travel. */
  function ObstacleStep(s: PlayerState, ob: Box, cfg: Config): PlayerState {
    var w := cfg.PlayerSize();
    var cd := CheckCollision(BoxOf(s, cfg), s.vy, ob);
    if !cd.colliding then s
    else if cd.fromAbove && s.vy > 0.0 then s.(y := ob.y - w, vy := 0.0, onGround := true)
    else if !cd.fromAbove && s.vy >= 0.0 then
      if s.vx > 0.0 && s.x + w > ob.x && s.x < ob.x then s.(x := ob.x - w, vx := 0.0)
      else if s.vx < 0.0 && s.x < ob.x + ob.w && s.x + w > ob.x + ob.w then s.(x := ob.x + ob.w, vx := 0.0)
      else s
    else s
  }

  /** All obstacles in array order. */
  function Collide(s: PlayerState, obs: seq<Box>, cfg: Config): PlayerState
    decreases |obs|
  {
    if |obs| == 0 then s else ObstacleStep(Collide(s, obs[..|obs| - 1], cfg), obs[|obs| - 1], cfg)
  }

  /** The bullet `Player.shoot` appends: from 80% of the width on the facing
      side, 40% of the height down, flying in the facing direction. */
  function Muzzle(s: PlayerState, cfg: Config): (b: Bullet)
    requires cfg.Valid()
    ensures b.vx > 0.0 <==> s.facingRight
    ensures b.vx == (if s.facingRight then cfg.BulletSpeed() else -cfg.BulletSpeed())
    ensures b.box.w == 12.0 * cfg.scale && b.box.h == 6.0 * cfg.scale
    ensures BoxOf(s, cfg).x <= b.box.x <= BoxOf(s, cfg).x + BoxOf(s, cfg).w
    ensures b.box.x == s.x + (if s.facingRight then 0.8 else 0.2) * cfg.PlayerSize()
    ensures b.box.y == s.y + 0.4 * cfg.PlayerSize()
  {
    var w := cfg.PlayerSize();
    var off := w * 0.8;
    Bullet(Box(if s.facingRight then s.x + off else s.x + (w - off), s.y + w * 0.4, 12.0 * cfg.scale, 6.0 * cfg.scale),
           if s.facingRight then cfg.BulletSpeed() else -cfg.BulletSpeed())
  }

  /** The shoot cooldown of one update: it counts down to zero, and a latched
      press fires once it is at zero, which restarts it at 18. */
  function CooldownTick(cd: int, press: bool): (r: (int, bool))
    ensures r.1 <==> press && cd <= 1
    ensures r.1 ==> r.0 == ShootCooldown
    ensures !r.1 ==> r.0 == (if cd > 0 then cd - 1 else cd)
  {
    var c := if cd > 0 then cd - 1 else cd;
    if press && c <= 0 then (ShootCooldown, true) else (c, false)
  }

  datatype Triggered = Triggered(player: PlayerState, jumped: bool, shot: Option<Bullet>)

  /** The jump trigger: a latched jump press while on the ground. */
  function JumpStage(s: PlayerState, c: Controls, cfg: Config): PlayerState {
    if c.jump && s.onGround then s.(vy := cfg.JumpStrength(), onGround := false) else s
  }

  /** The cooldown count-down and the shoot trigger, which shows the shooting pose. */
  function FireStage(s: PlayerState, press: bool): PlayerState {
    var (cd, fired) := CooldownTick(s.shootingCooldown, press);
    if fired then s.(shootingCooldown := cd, shooting := true, shootFrameTimer := ShootFrameDuration)
    else s.(shootingCooldown := cd)
  }

  /** The shooting-pose timer: it counts down and ends the pose at zero. */
  function PoseStage(s: PlayerState): PlayerState {
    if s.shootFrameTimer > 0 then
      s.(shootFrameTimer := s.shootFrameTimer - 1,
         shooting := if s.shootFrameTimer - 1 <= 0 then false else s.shooting)
    else s
  }

  /** The invulnerability timer: it counts down and clears the flag at zero. */
  function GuardStage(s: PlayerState): PlayerState {
    if s.invulnerable then
      s.(invulnerableTimer := s.invulnerableTimer - 1, invulnerable := s.invulnerableTimer - 1 > 0)
    else s
  }

  /** Jump trigger, shoot trigger, shooting-pose timer and invulnerability timer. */
  function Triggers(s: PlayerState, c: Controls, cfg: Config): Triggered
    requires cfg.Valid()
  {
    var s1 := JumpStage(s, c, cfg);
    var fired := CooldownTick(s1.shootingCooldown, c.shoot).1;
    Triggered(GuardStage(PoseStage(FireStage(s1, c.shoot))), c.jump && s.onGround,
              if fired then Some(Muzzle(s1, cfg)) else None)
  }

  /** One whole `Player.update`. */
  function Step(s: PlayerState, c: Controls, scroll: real, obs: seq<Box>, cfg: Config): Triggered
    requires cfg.Valid()
  {
    Triggers(Collide(Moved(s, c, scroll, cfg), obs, cfg), c, cfg)
  }

  /** One obstacle either leaves the player alone or moves it out of the
      obstacle: landing puts its bottom on the obstacle's top, a side push puts
      it against the obstacle's side, and touching edges do not overlap. */
  lemma ObstacleStepResolves(s: PlayerState, ob: Box, cfg: Config)
    ensures var r := ObstacleStep(s, ob, cfg);
      && (r == s || !Overlaps(BoxOf(r, cfg), ob))
      && (CheckCollision(BoxOf(s, cfg), s.vy, ob).fromAbove ==>
            r.onGround && r.vy == 0.0 && r.y + cfg.PlayerSize() == ob.y)
      && (!CheckCollision(BoxOf(s, cfg), s.vy, ob).colliding ==> r == s)
  {
  }

  /** Obstacles only touch position, velocity and `onGround`: `onGround` can
      only be set, `vx` only zeroed, and every timer is left alone. */
  lemma {:induction false} CollideKeeps(s: PlayerState, obs: seq<Box>, cfg: Config)
    ensures var r := Collide(s, obs, cfg);
      && (s.onGround ==> r.onGround)
      && (r.vx == s.vx || r.vx == 0.0)
      && r.facingRight == s.facingRight && r.shooting == s.shooting
      && r.shootingCooldown == s.shootingCooldown && r.shootFrameTimer == s.shootFrameTimer
      && r.invulnerable == s.invulnerable && r.invulnerableTimer == s.invulnerableTimer
    decreases |obs|
  {
    if |obs| > 0 {
      CollideKeeps(s, obs[..|obs| - 1], cfg);
      ObstacleStepKeeps(Collide(s, obs[..|obs| - 1], cfg), obs[|obs| - 1], cfg);
    }
  }

  lemma ObstacleStepKeeps(s: PlayerState, ob: Box, cfg: Config)
    ensures var r := ObstacleStep(s, ob, cfg);
      && (s.onGround ==> r.onGround)
      && (r.vx == s.vx || r.vx == 0.0)
      && r.facingRight == s.facingRight && r.shooting == s.shooting
      && r.shootingCooldown == s.shootingCooldown && r.shootFrameTimer == s.shootFrameTimer
      && r.invulnerable == s.invulnerable && r.invulnerableTimer == s.invulnerableTimer
  {
  }

  /** A jump fires exactly when the jump press is latched and the player is on
      the ground after the obstacles; it sets the jump velocity and leaves the
      ground. Without a jump the triggers do not touch the vertical state. */
  lemma JumpRule(s: PlayerState, c: Controls, scroll: real, obs: seq<Box>, cfg: Config)
    requires cfg.Valid()
    ensures var landed := Collide(Moved(s, c, scroll, cfg), obs, cfg);
      var r := Step(s, c, scroll, obs, cfg);
      && (r.jumped <==> c.jump && landed.onGround)
      && (r.jumped ==> r.player.vy == cfg.JumpStrength() && r.player.vy < 0.0 && !r.player.onGround)
      && (!r.jumped ==> r.player.vy == landed.vy && r.player.onGround == landed.onGround)
      && r.player.x == landed.x && r.player.y == landed.y && r.player.vx == landed.vx
  {
  }

  /** A shot fires exactly when the shoot press is latched and the cooldown was
      at most one before the update; it yields one bullet flying the way the
      player faces, restarts the cooldown at 18 and shows the shooting pose
      (15 frames, of which this update already used one). */
  lemma ShotRule(s: PlayerState, c: Controls, scroll: real, obs: seq<Box>, cfg: Config)
    requires cfg.Valid()
    ensures var r := Step(s, c, scroll, obs, cfg);
      && (r.shot.Some? <==> c.shoot && s.shootingCooldown <= 1)
      && (r.player.shootingCooldown, r.shot.Some?) == CooldownTick(s.shootingCooldown, c.shoot)
      && (r.shot.Some? ==>
            && r.player.shootingCooldown == ShootCooldown
            && r.player.shooting && r.player.shootFrameTimer == ShootFrameDuration - 1
            && (r.shot.value.vx > 0.0 <==> r.player.facingRight))
  {
    var landed := Collide(Moved(s, c, scroll, cfg), obs, cfg);
    CollideKeeps(Moved(s, c, scroll, cfg), obs, cfg);
    TriggersFire(landed, c, cfg);
  }

  /** The shoot trigger on the state after the obstacles. */
  lemma TriggersFire(s: PlayerState, c: Controls, cfg: Config)
    requires cfg.Valid()
    ensures var r := Triggers(s, c, cfg);
      && (r.player.shootingCooldown, r.shot.Some?) == CooldownTick(s.shootingCooldown, c.shoot)
      && (r.shot.Some? ==>
            && r.player.shooting && r.player.shootFrameTimer == ShootFrameDuration - 1
            && (r.shot.value.vx > 0.0 <==> r.player.facingRight))
  {
    var s1 := JumpStage(s, c, cfg);
    var s2 := FireStage(s1, c.shoot);
    var s3 := PoseStage(s2);
    assert s1.shootingCooldown == s.shootingCooldown && s1.facingRight == s.facingRight;
    assert s3.shootingCooldown == s2.shootingCooldown && s3.facingRight == s1.facingRight;
    assert GuardStage(s3).shootingCooldown == s3.shootingCooldown && GuardStage(s3).facingRight == s3.facingRight;
    assert GuardStage(s3).shooting == s3.shooting && GuardStage(s3).shootFrameTimer == s3.shootFrameTimer;
  }

  /** The invulnerability timer counts down only while invulnerable and clears
      the flag when it reaches zero; an update never makes the player invulnerable. */
  lemma InvulnerabilityRule(s: PlayerState, c: Controls, scroll: real, obs: seq<Box>, cfg: Config)
    requires cfg.Valid()
    ensures var r := Step(s, c, scroll, obs, cfg);
      && (s.invulnerable ==> r.player.invulnerableTimer == s.invulnerableTimer - 1
                             && (r.player.invulnerable <==> s.invulnerableTimer > 1))
      && (!s.invulnerable ==> !r.player.invulnerable && r.player.invulnerableTimer == s.invulnerableTimer)
  {
    var landed := Collide(Moved(s, c, scroll, cfg), obs, cfg);
    CollideKeeps(Moved(s, c, scroll, cfg), obs, cfg);
    TriggersGuard(landed, c, cfg);
  }

  /** The invulnerability timer on the state after the obstacles. */
  lemma TriggersGuard(s: PlayerState, c: Controls, cfg: Config)
    requires cfg.Valid()
    ensures var r := Triggers(s, c, cfg);
      && (s.invulnerable ==> r.player.invulnerableTimer == s.invulnerableTimer - 1
                             && (r.player.invulnerable <==> s.invulnerableTimer > 1))
      && (!s.invulnerable ==> !r.player.invulnerable && r.player.invulnerableTimer == s.invulnerableTimer)
  {
    var s3 := PoseStage(FireStage(JumpStage(s, c, cfg), c.shoot));
    assert s3.invulnerable == s.invulnerable && s3.invulnerableTimer == s.invulnerableTimer;
  }

  /** Holding only the left button at the left edge of the view leaves the
      player where it is, facing left. */
  lemma LeftEdgeHolds(s: PlayerState, cfg: Config)
    requires cfg.Valid() && s.x == 0.0
    ensures var r := Step(s, Controls(true, false, false, false), 0.0, [], cfg);
      r.player.x == 0.0 && !r.player.facingRight
  {
  }

  /** Which updates fire when the shoot latch reads `presses`, one entry per update. */
  function CooldownRun(cd: int, presses: seq<bool>): (r: seq<bool>)
    ensures |r| == |presses|
    decreases |presses|
  {
    if |presses| == 0 then []
    else
      var t := CooldownTick(cd, presses[0]);
      [t.1] + CooldownRun(t.0, presses[1..])
  }

  /** With cooldown `cd`, none of the next `cd - 1` updates fires. */
  lemma {:induction false} NoShotWithin(cd: int, presses: seq<bool>, k: nat)
    requires k < |presses| && k < cd - 1
    ensures !CooldownRun(cd, presses)[k]
    decreases k
  {
    var t := CooldownTick(cd, presses[0]);
    if k > 0 {
      NoShotWithin(t.0, presses[1..], k - 1);
    }
  }

  /** Two shots are always at least 18 updates apart. */
  lemma {:induction false} ShotsSpaced(cd: int, presses: seq<bool>, i: nat, j: nat)
    requires i < j < |presses|
    requires CooldownRun(cd, presses)[i] && CooldownRun(cd, presses)[j]
    ensures j - i >= ShootCooldown
    decreases i
  {
    var t := CooldownTick(cd, presses[0]);
    if i == 0 {
      if j - 1 < ShootCooldown - 1 {
        NoShotWithin(t.0, presses[1..], j - 1);
      }
    } else {
      ShotsSpaced(t.0, presses[1..], i - 1, j - 1);
    }
  }
}
