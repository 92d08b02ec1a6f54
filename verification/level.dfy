/** The fixed level that `initGame` builds. */
module Level {
  import opened Settings
  import opened Geometry
  import opened Enemies

  /** `new Enemy(...)`: the box size is scaled, the position is not; the shoot
      timer starts at `100 + 100 r` for the draw `r`; a patrol starts at its
      spawn point moving right with a range of 100 scaled pixels. */
  function NewEnemy(x: real, y: real, w: real, h: real, health: int, kind: Kind, r: real, cfg: Config): Enemy {
    Enemy(Box(x, y, w * cfg.scale, h * cfg.scale), kind, health, health,
          r * 100.0 + 100.0, 0.0, 1, 100.0 * cfg.scale, x, 0, 0, false)
  }

  /** The three obstacles; like the enemies, their positions are in unscaled
      units and their sizes are scaled. */
  function LevelObstacles(cfg: Config): (obs: seq<Box>)
    requires cfg.Valid()
    ensures |obs| == 3
    ensures forall k | 0 <= k < |obs| :: obs[k].w > 0.0 && obs[k].h > 0.0
    ensures obs[0].x == 350.0 && obs[1].x == 650.0 && obs[2].x == 1000.0
    ensures var top := cfg.gameHeight / cfg.scale;
      obs[0].y == top - 100.0 && obs[1].y == top - 160.0 && obs[2].y == top - 80.0
  {
    var top := cfg.gameHeight / cfg.scale;
    [Box(350.0, top - 100.0, 80.0 * cfg.scale, 50.0 * cfg.scale),
     Box(650.0, top - 160.0, 120.0 * cfg.scale, 80.0 * cfg.scale),
     Box(1000.0, top - 80.0, 60.0 * cfg.scale, 60.0 * cfg.scale)]
  }

  /** The four enemies, two shooters, a patroller and the boss, standing on the
      ground line; `timers` are the four random draws of their constructors. */
  function LevelEnemies(cfg: Config, timers: seq<real>): (es: seq<Enemy>)
    requires cfg.Valid() && |timers| == 4 && forall k | 0 <= k < |timers| :: 0.0 <= timers[k] < 1.0
    ensures |es| == 4
    ensures es[0].kind == A && es[1].kind == B && es[2].kind == A && es[3].kind == C
    ensures es[0].health == 2 && es[1].health == 1 && es[2].health == 2 && es[3].health == 15
    ensures forall k | 0 <= k < |es| :: es[k].initialHealth == es[k].health && !es[k].isShooting && 100.0 <= es[k].shootTimer < 200.0
    ensures forall k | 0 <= k < |es| :: PatrolInvariant(es[k], cfg) && es[k].box.x == es[k].initialX
    ensures es[0].box.x == 550.0 && es[1].box.x == 850.0 && es[2].box.x == 1150.0 && es[3].box.x == 1600.0
    ensures var top := cfg.gameHeight / cfg.scale;
      es[0].box.y == top - 50.0 && es[1].box.y == top - 55.0 && es[2].box.y == top - 50.0 && es[3].box.y == top - 90.0
  {
    var top := cfg.gameHeight / cfg.scale;
    [NewEnemy(550.0, top - 50.0, 40.0, 40.0, 2, A, timers[0], cfg),
     NewEnemy(850.0, top - 55.0, 45.0, 45.0, 1, B, timers[1], cfg),
     NewEnemy(1150.0, top - 50.0, 40.0, 40.0, 2, A, timers[2], cfg),
     NewEnemy(1600.0, top - 90.0, 80.0, 80.0, 15, C, timers[3], cfg)]
  }
}
