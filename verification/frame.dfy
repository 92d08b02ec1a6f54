/** One `gameLoop` call as a function on the whole session state, and what it
    keeps: the session invariant, the level, and a loss of at most one health
    point however many things touch the player. */
module Frame {
  import opened Settings
  import opened Geometry
  import opened Camera
  import opened Damage
  import opened Enemies
  import opened Projectiles
  import opened PlayerPhysics
  import opened Touch
  import opened Level

  /** The globals of the script at one moment, with the player's fields. */
  datatype Session = Session(
    player: PlayerState, enemies: seq<Enemy>, bullets: seq<Bullet>, hazards: seq<EnemyBullet>,
    obstacles: seq<Box>, scroll: real, score: int, health: int,
    gameOver: bool, gameWon: bool, running: bool, input: Input)

  function VitalsOf(s: Session): Vitals {
    Vitals(s.health, s.player.invulnerable, s.player.invulnerableTimer, s.gameOver)
  }

  /** The session after contact checks left the vitals `v`. */
  function WithVitals(s: Session, v: Vitals): Session {
    s.(health := v.health, gameOver := v.gameOver,
       player := s.player.(invulnerable := v.invulnerable, invulnerableTimer := v.timer))
  }

  /** What every reachable session satisfies: the scroll offset stays inside the
      level, patrols are well-formed, the game-over flag agrees with the health,
      and every held button has a touch. */
  ghost predicate Invariant(cfg: Config, scroll: real, enemies: seq<Enemy>, gameOver: bool, health: int, input: Input) {
    && cfg.Valid()
    && 0.0 <= scroll <= MaxScroll(cfg.LevelWidth(), cfg.gameWidth)
    && (forall e | e in enemies :: PatrolInvariant(e, cfg))
    && (gameOver <==> health <= 0)
    && Consistent(input)
  }

  ghost predicate Holds(s: Session, cfg: Config) {
    Invariant(cfg, s.scroll, s.enemies, s.gameOver, s.health, s.input)
  }

  predicate ValidTimers(timers: seq<real>) {
    |timers| == 4 && forall k | 0 <= k < |timers| :: 0.0 <= timers[k] < 1.0
  }

  /** The session `initGame` builds: the player at its spawn point, the fixed
      level, no bullets, full health, no scroll. The input and the running
      flag are not touched by `initGame`. */
  function NewSession(cfg: Config, timers: seq<real>, input: Input, running: bool): Session
    requires cfg.Valid() && ValidTimers(timers)
  {
    Session(PlayerState(100.0 * cfg.scale, cfg.gameHeight - (80.0 + 10.0) * cfg.scale,
                        0.0, 0.0, false, true, false, 0, false, 0, 0),
            LevelEnemies(cfg, timers), [], [], LevelObstacles(cfg), 0.0, 0, StartHealth,
            false, false, running, input)
  }

  /** A freshly built level satisfies the invariant. */
  lemma NewSessionHolds(cfg: Config, timers: seq<real>, input: Input, running: bool)
    requires cfg.Valid() && ValidTimers(timers) && Consistent(input)
    ensures Holds(NewSession(cfg, timers, input, running), cfg)
    ensures var s := NewSession(cfg, timers, input, running);
      && s.health == StartHealth && !s.gameOver && !s.gameWon && Bosses(s.enemies) == 1
      && |s.enemies| == 4 && |s.obstacles| == 3 && s.player.y + cfg.PlayerSize() + 10.0 * cfg.scale == cfg.gameHeight
  {
    var es := LevelEnemies(cfg, timers);
    assert es == es[..3] + [es[3]];
    BossesAppend(es[..3], [es[3]]);
    assert es[..3] == es[..2] + [es[2]];
    BossesAppend(es[..2], [es[2]]);
    assert es[..2] == es[..1] + [es[1]];
    BossesAppend(es[..1], [es[1]]);
    assert es[..1] == [] + [es[0]];
    BossesAppend([], [es[0]]);
  }

  /** The scrolling lines: the camera eases toward the player. */
  function ScrollStage(s: Session, cfg: Config): Session {
    s.(scroll := Eased(s.scroll, TargetScroll(s.player.x, cfg.gameWidth, cfg.LevelWidth())))
  }

  /** What `Player.update` reads of the input. */
  function ControlsOf(i: Input): Controls {
    Controls(i.leftHeld, i.rightHeld, i.jumpPressed, i.shootPressed)
  }

  /** `player.update(backgroundX)`: the player steps, a shot is pushed onto
      the bullets, and the latches it used are cleared. */
  function PlayerStage(s: Session, cfg: Config): Session
    requires cfg.Valid()
  {
    var r := Step(s.player, ControlsOf(s.input), s.scroll, s.obstacles, cfg);
    s.(player := r.player,
       bullets := s.bullets + (if r.shot.Some? then [r.shot.value] else []),
       input := Consume(s.input, r.jumped, r.shot.Some?))
  }

  /** The `enemies.forEach`: every enemy updates in place, its shots are
      appended, and the player is checked against it. */
  function EnemyStage(s: Session, draws: seq<Draw>, cfg: Config): Session
    requires |draws| == |s.enemies| && ValidDraws(draws)
  {
    var w := EnemyPass(s.enemies, draws, BoxOf(s.player, cfg), VitalsOf(s), cfg);
    WithVitals(s.(enemies := w.enemies, hazards := s.hazards + w.spawned), w.vitals)
  }

  /** The player-bullet filter. */
  function BulletStage(s: Session, cfg: Config): Session {
    var v := BulletPass(s.bullets, s.enemies, s.gameWon, s.scroll, cfg.gameWidth);
    s.(bullets := v.kept, enemies := v.enemies, gameWon := v.won)
  }

  /** The enemy-bullet filter. */
  function HazardStage(s: Session, cfg: Config): Session {
    var p := HazardPass(s.hazards, BoxOf(s.player, cfg), VitalsOf(s), s.scroll, cfg);
    WithVitals(s.(hazards := p.kept), p.vitals)
  }

  /** One `gameLoop` call, drawing left out. */
  function GameLoop(s: Session, draws: seq<Draw>, cfg: Config): Session
    requires cfg.Valid() && |draws| == |s.enemies| && ValidDraws(draws)
  {
    if s.gameOver || s.gameWon then s.(running := false)
    else
      var s1 := PlayerStage(ScrollStage(s.(running := true), cfg), cfg);
      HazardStage(BulletStage(EnemyStage(s1, draws, cfg), cfg), cfg)
  }

  /** The player update keeps the invariant and touches neither the enemies,
      the hazards, the health nor the level; invulnerability lasts through it
      unless its timer runs out. */
  lemma PlayerStageRules(s: Session, cfg: Config)
    requires Holds(s, cfg)
    ensures var t := PlayerStage(s, cfg);
      && Holds(t, cfg) && t.health == s.health && t.gameOver == s.gameOver
      && t.enemies == s.enemies && t.hazards == s.hazards && t.obstacles == s.obstacles
      && t.scroll == s.scroll && t.score == s.score && t.gameWon == s.gameWon && t.running == s.running
      && |s.bullets| <= |t.bullets| <= |s.bullets| + 1
      && (s.player.invulnerable ==> (t.player.invulnerable <==> s.player.invulnerableTimer > 1))
  {
    var r := Step(s.player, ControlsOf(s.input), s.scroll, s.obstacles, cfg);
    InvulnerabilityRule(s.player, ControlsOf(s.input), s.scroll, s.obstacles, cfg);
    ConsumeKeepsConsistent(s.input);
    assert Consistent(Consume(s.input, r.jumped, r.shot.Some?));
  }

  /** The enemy pass keeps the invariant, the number of enemies and bosses and
      the player's position, and costs at most one health point. */
  lemma EnemyStageRules(s: Session, draws: seq<Draw>, cfg: Config)
    requires Holds(s, cfg) && |draws| == |s.enemies| && ValidDraws(draws)
    ensures var t := EnemyStage(s, draws, cfg);
      && Holds(t, cfg) && AtMostOneLoss(VitalsOf(s), VitalsOf(t))
      && |t.enemies| == |s.enemies| && Bosses(t.enemies) == Bosses(s.enemies)
      && t.bullets == s.bullets && t.obstacles == s.obstacles && t.scroll == s.scroll
      && t.score == s.score && t.gameWon == s.gameWon && t.running == s.running && t.input == s.input
      && BoxOf(t.player, cfg) == BoxOf(s.player, cfg)
      && t == WithVitals(s.(enemies := t.enemies, hazards := t.hazards), VitalsOf(t))
  {
    EnemyPassRules(s.enemies, draws, BoxOf(s.player, cfg), VitalsOf(s), cfg);
  }

  /** The enemy pass of one tick: it keeps the number of enemies and of bosses,
      keeps patrols well-formed and costs at most one health point. */
  lemma EnemyPassRules(es: seq<Enemy>, ds: seq<Draw>, p: Box, v: Vitals, cfg: Config)
    requires |ds| == |es| && ValidDraws(ds) && cfg.Valid()
    requires forall e | e in es :: PatrolInvariant(e, cfg)
    ensures var w := EnemyPass(es, ds, p, v, cfg);
      && |w.enemies| == |es| && Bosses(w.enemies) == Bosses(es)
      && (forall e | e in w.enemies :: PatrolInvariant(e, cfg))
      && AtMostOneLoss(v, w.vitals)
  {
    var w := EnemyPass(es, ds, p, v, cfg);
    EnemyPassLength(es, ds, p, v, cfg);
    EnemyPassKeepsPatrols(es, ds, p, v, cfg);
    EnemyPassLosesAtMostOne(es, ds, p, v, cfg);
    forall i | 0 <= i < |es| ensures w.enemies[i].kind == es[i].kind {
      assert ds[i] in ds;
      EnemyPassUpdatesInPlace(es, ds, p, v, cfg, i);
    }
    BossesPointwise(w.enemies, es);
  }

  /** The player-bullet filter keeps the invariant and the vitals, never adds
      an enemy, and sets the win flag exactly when a boss goes. */
  lemma BulletStageRules(s: Session, cfg: Config)
    requires Holds(s, cfg)
    ensures var t := BulletStage(s, cfg);
      && Holds(t, cfg) && VitalsOf(t) == VitalsOf(s) && t.player == s.player
      && |t.enemies| <= |s.enemies| && |t.bullets| <= |s.bullets|
      && (t.gameWon <==> s.gameWon || Bosses(t.enemies) < Bosses(s.enemies))
      && (forall b | b in t.bullets :: OnScreenX(b.box, s.scroll, cfg.gameWidth))
      && t.hazards == s.hazards && t.obstacles == s.obstacles && t.scroll == s.scroll
      && t.score == s.score && t.running == s.running && t.input == s.input
  {
    BulletPassCounts(s.bullets, s.enemies, s.gameWon, s.scroll, cfg.gameWidth, cfg);
  }

  /** The enemy-bullet filter keeps the invariant and the player's position,
      costs at most one health point, and keeps only hazards on screen. */
  lemma HazardStageRules(s: Session, cfg: Config)
    requires Holds(s, cfg)
    ensures var t := HazardStage(s, cfg);
      && Holds(t, cfg) && AtMostOneLoss(VitalsOf(s), VitalsOf(t))
      && |t.hazards| <= |s.hazards| && (forall h | h in t.hazards :: OnScreen(h.box, s.scroll, cfg))
      && t.enemies == s.enemies && t.bullets == s.bullets && t.gameWon == s.gameWon
      && t.obstacles == s.obstacles && t.scroll == s.scroll && t.score == s.score
      && t.running == s.running && t.input == s.input && BoxOf(t.player, cfg) == BoxOf(s.player, cfg)
      && t == WithVitals(s.(hazards := t.hazards), VitalsOf(t))
  {
    HazardPassLosesAtMostOne(s.hazards, BoxOf(s.player, cfg), VitalsOf(s), s.scroll, cfg);
  }

  /** What one `gameLoop` call promises. A finished game only stops running.
      Otherwise the camera eases toward the player, at most one health point
      is lost and a loss leaves the player invulnerable, none is lost while the
      player stays invulnerable through the update, no enemy appears, the
      game is won exactly when a boss is destroyed, the level is unchanged and
      the invariant is kept. */
  lemma {:induction false} GameLoopRules(s: Session, draws: seq<Draw>, cfg: Config)
    requires Holds(s, cfg) && |draws| == |s.enemies| && ValidDraws(draws)
    ensures var t := GameLoop(s, draws, cfg);
      && Holds(t, cfg) && t.obstacles == s.obstacles && t.score == s.score
      && (s.gameOver || s.gameWon ==> t == s.(running := false))
      && (!(s.gameOver || s.gameWon) ==>
            && t.running
            && t.scroll == Eased(s.scroll, TargetScroll(s.player.x, cfg.gameWidth, cfg.LevelWidth()))
            && s.health - 1 <= t.health <= s.health
            && (t.health < s.health ==> t.player.invulnerable)
            && (s.player.invulnerable && s.player.invulnerableTimer > 1 ==>
                  t.health == s.health && t.gameOver == s.gameOver)
            && |t.enemies| <= |s.enemies|
            && (t.gameWon <==> Bosses(t.enemies) < Bosses(s.enemies)))
  {
    if !(s.gameOver || s.gameWon) {
      var s0 := ScrollStage(s.(running := true), cfg);
      ScrollStaysInBounds(s.scroll, s.player.x, cfg.gameWidth, cfg.LevelWidth());
      var s1 := PlayerStage(s0, cfg);
      PlayerStageRules(s0, cfg);
      var s2 := EnemyStage(s1, draws, cfg);
      EnemyStageRules(s1, draws, cfg);
      var s3 := BulletStage(s2, cfg);
      BulletStageRules(s2, cfg);
      HazardStageRules(s3, cfg);
      AtMostOneLossTransitive(VitalsOf(s1), VitalsOf(s2), VitalsOf(HazardStage(s3, cfg)));
    }
  }

  /** `restartGameOnce` on the session: a finished session that no frame is
      running starts over as a fresh, running session; anything else is left
      as it is. */
  function Restart(s: Session, cfg: Config, timers: seq<real>): Session
    requires cfg.Valid() && ValidTimers(timers)
  {
    if !s.running && (s.gameOver || s.gameWon) then NewSession(cfg, timers, s.input, true) else s
  }

  /** A restart keeps the invariant; it happens only after the game ended, and
      the restarted session is running with full health and the boss back. */
  lemma RestartRules(s: Session, cfg: Config, timers: seq<real>)
    requires Holds(s, cfg) && ValidTimers(timers)
    ensures var t := Restart(s, cfg, timers);
      && Holds(t, cfg) && t.input == s.input
      && (t != s ==> !s.running && (s.gameOver || s.gameWon))
      && (!s.running && (s.gameOver || s.gameWon) ==>
            t.running && !t.gameOver && !t.gameWon && t.health == StartHealth && Bosses(t.enemies) == 1)
  {
    NewSessionHolds(cfg, timers, s.input, true);
  }

  /** The start button's click on the session: it is ignored while assets are
      still loading or while a started game is running; otherwise the canvas
      is resized, which releases the four buttons, and a fresh session is
      built and set running. `started` is whether a click has already got
      through once. */
  function Start(s: Session, cfg: Config, timers: seq<real>, started: bool, assetsReady: bool): Session
    requires cfg.Valid() && ValidTimers(timers)
  {
    if (started && s.running) || !assetsReady then s else NewSession(cfg, timers, ReleaseButtons(s.input), true)
  }

  /** A start keeps the invariant; it changes the session only when the assets
      are ready and no started game is running, and then the session is
      running with full health, the boss in place and no button held. Unlike a
      restart, it also starts over a game that has not ended. */
  lemma StartRules(s: Session, cfg: Config, timers: seq<real>, started: bool, assetsReady: bool)
    requires Holds(s, cfg) && ValidTimers(timers)
    ensures var t := Start(s, cfg, timers, started, assetsReady);
      && Holds(t, cfg)
      && (!assetsReady || (started && s.running) ==> t == s)
      && (assetsReady && !(started && s.running) ==>
            t.running && !t.gameOver && !t.gameWon && t.health == StartHealth && Bosses(t.enemies) == 1
            && t.obstacles == LevelObstacles(cfg) && t.bullets == [] && t.hazards == [] && t.scroll == 0.0
            && t.input == ReleaseButtons(s.input) && (forall b: Button :: !Held(t.input, b)))
  {
    NewSessionHolds(cfg, timers, ReleaseButtons(s.input), true);
  }
}
