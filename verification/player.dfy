/** The player object: its fields are updated in place once per tick. */
module PlayerObj {
  import opened Settings
  import opened Geometry
  import opened Damage
  import opened Projectiles
  import opened PlayerPhysics

  class Player {
    var x: real
    var y: real
    var vx: real
    var vy: real
    var onGround: bool
    var facingRight: bool
    var shooting: bool
    var shootingCooldown: int
    var invulnerable: bool
    var invulnerableTimer: int
    var shootFrameTimer: int

    /** The fields as one value. */
    function State(): PlayerState
      reads this
    {
      PlayerState(x, y, vx, vy, onGround, facingRight, shooting,
                  shootingCooldown, invulnerable, invulnerableTimer, shootFrameTimer)
    }

    /** A fresh player at rest, facing right, not yet on the ground. */
    constructor (x0: real, y0: real)
      ensures State() == PlayerState(x0, y0, 0.0, 0.0, false, true, false, 0, false, 0, 0)
    {
      x, y, vx, vy := x0, y0, 0.0, 0.0;
      onGround, facingRight, shooting := false, true, false;
      shootingCooldown := 0;
      invulnerable, invulnerableTimer := false, 0;
      shootFrameTimer := 0;
    }

    /** `Player.update`. The caller consumes the jump latch when `jumped` and
        appends `shot` to the bullet list (what `Player.shoot` does). */
    method Update(c: Controls, scroll: real, obstacles: seq<Box>, cfg: Config) returns (jumped: bool, shot: Option<Bullet>)
      requires cfg.Valid()
      modifies this
      ensures Triggered(State(), jumped, shot) == Step(old(State()), c, scroll, obstacles, cfg)
    {
      Move(c, scroll, cfg);
      ResolveObstacles(obstacles, cfg);
      jumped, shot := RunTriggers(c, cfg);
    }

    /** Buttons to velocity, integration, the left clamp and the ground snap. */
    method Move(c: Controls, scroll: real, cfg: Config)
      modifies this`x, this`y, this`vx, this`vy, this`onGround, this`facingRight
      ensures State() == Moved(old(State()), c, scroll, cfg)
    {
      Steer(c, cfg);
      Fall(scroll, cfg);
    }

    method Steer(c: Controls, cfg: Config)
      modifies this`x, this`vx, this`facingRight
      ensures State() == Steered(old(State()), c, cfg)
    {
      vx := 0.0;
      if c.left { vx := -cfg.PlayerSpeed(); facingRight := false; }
      if c.right { vx := cfg.PlayerSpeed(); facingRight := true; }
      x := x + vx;
    }

    method Fall(scroll: real, cfg: Config)
      modifies this`x, this`y, this`vy, this`onGround
      ensures State() == Fallen(old(State()), scroll, cfg)
    {
      vy := vy + cfg.Gravity();
      y := y + vy;
      onGround := false;
      if x < scroll { x := scroll; }
      var groundY := cfg.GroundY();
      if y >= groundY && vy >= 0.0 { y := groundY; vy := 0.0; onGround := true; }
    }

    /** The `obstacles.forEach` of `Player.update`, in array order. */
    method ResolveObstacles(obstacles: seq<Box>, cfg: Config)
      modifies this`x, this`y, this`vx, this`vy, this`onGround
      ensures State() == Collide(old(State()), obstacles, cfg)
    {
      var i := 0;
      while i < |obstacles|
        invariant 0 <= i <= |obstacles|
        invariant State() == Collide(old(State()), obstacles[..i], cfg)
      {
        PushOut(obstacles[i], cfg);
        assert obstacles[..i + 1][..i] == obstacles[..i];
        i := i + 1;
      }
      assert obstacles[..|obstacles|] == obstacles;
    }

    /** The body of that `forEach` for one obstacle. */
    method PushOut(ob: Box, cfg: Config)
      modifies this`x, this`y, this`vx, this`vy, this`onGround
      ensures State() == ObstacleStep(old(State()), ob, cfg)
    {
      var w := cfg.PlayerSize();
      var cd := CheckCollision(Box(x, y, w, w), vy, ob);
      if cd.colliding {
        if cd.fromAbove && vy > 0.0 {
          y := ob.y - w; vy := 0.0; onGround := true;
        } else if !cd.fromAbove && vy >= 0.0 {
          if vx > 0.0 && x + w > ob.x && x < ob.x {
            x := ob.x - w; vx := 0.0;
          } else if vx < 0.0 && x < ob.x + ob.w && x + w > ob.x + ob.w {
            x := ob.x + ob.w; vx := 0.0;
          }
        }
      }
    }

    /** Jump trigger, shoot trigger and cooldown, shooting pose, invulnerability. */
    method RunTriggers(c: Controls, cfg: Config) returns (jumped: bool, shot: Option<Bullet>)
      requires cfg.Valid()
      modifies this
      ensures Triggered(State(), jumped, shot) == Triggers(old(State()), c, cfg)
    {
      jumped := Jump(c, cfg);
      shot := Fire(c.shoot, cfg);
      CountDownPose();
      CountDownGuard();
    }

    method Jump(c: Controls, cfg: Config) returns (jumped: bool)
      modifies this`vy, this`onGround
      ensures jumped == (c.jump && old(onGround))
      ensures State() == JumpStage(old(State()), c, cfg)
    {
      jumped := false;
      if c.jump && onGround { vy := cfg.JumpStrength(); onGround := false; jumped := true; }
    }

    method Fire(press: bool, cfg: Config) returns (shot: Option<Bullet>)
      requires cfg.Valid()
      modifies this`shootingCooldown, this`shooting, this`shootFrameTimer
      ensures State() == FireStage(old(State()), press)
      ensures shot == if CooldownTick(old(shootingCooldown), press).1 then Some(Muzzle(old(State()), cfg)) else None
    {
      if shootingCooldown > 0 { shootingCooldown := shootingCooldown - 1; }
      shot := None;
      if press && shootingCooldown <= 0 {
        shot := Some(Muzzle(State(), cfg));
        shooting := true;
        shootFrameTimer := ShootFrameDuration;
        shootingCooldown := ShootCooldown;
      }
    }

    method CountDownPose()
      modifies this`shootFrameTimer, this`shooting
      ensures State() == PoseStage(old(State()))
    {
      if shootFrameTimer > 0 {
        shootFrameTimer := shootFrameTimer - 1;
        if shootFrameTimer <= 0 { shooting := false; }
      }
    }

    method CountDownGuard()
      modifies this`invulnerable, this`invulnerableTimer
      ensures State() == GuardStage(old(State()))
    {
      if invulnerable {
        invulnerableTimer := invulnerableTimer - 1;
        if invulnerableTimer <= 0 { invulnerable := false; }
      }
    }

    /** `Player.takeDamage`. The health and the game-over flag are globals of
        the game, passed in and handed back. */
    method TakeDamage(health: int, gameOver: bool) returns (health': int, gameOver': bool)
      modifies this`invulnerable, this`invulnerableTimer
      ensures Vitals(health', invulnerable, invulnerableTimer, gameOver')
              == Hurt(Vitals(health, old(invulnerable), old(invulnerableTimer), gameOver))
    {
      health', gameOver' := health, gameOver;
      if !invulnerable {
        health' := health - 1;
        invulnerable := true;
        invulnerableTimer := InvulnerableDuration;
        if health' <= 0 { gameOver' := true; }
      }
    }
  }
}
