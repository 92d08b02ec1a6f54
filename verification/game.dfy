/** The game session: the globals of game.js gathered in one object, and one
    `gameLoop` call as one `Tick`. */
module Game {
  import opened Settings
  import opened Geometry
  import opened Camera
  import opened Damage
  import opened Enemies
  import opened Projectiles
  import opened PlayerPhysics
  import opened PlayerObj
  import opened Touch
  import opened Level
  import opened Frame

  /** One more enemy of the pass, as the loop over the array sees it. */
  lemma EnemyPassNext(es: seq<Enemy>, ds: seq<Draw>, i: nat, p: Box, v: Vitals, cfg: Config)
    requires i < |es| == |ds| && ValidDraws(ds)
    ensures ValidDraws(ds[..i]) && ValidDraws(ds[..i + 1]) && ValidDraw(ds[i])
    ensures var w := EnemyPass(es[..i], ds[..i], p, v, cfg);
      var t := EnemyStep(es[i], p, ds[i], cfg);
      EnemyPass(es[..i + 1], ds[..i + 1], p, v, cfg)
        == Wave(w.enemies + [t.enemy], w.spawned + t.spawned, Contact(w.vitals, Overlaps(p, t.enemy.box)))
  {
    assert ds[i] in ds;
    assert forall d | d in ds[..i + 1] :: d in ds;
    assert es[..i + 1][..i] == es[..i] && ds[..i + 1][..i] == ds[..i];
  }

  /** A plain sequence helper for the enemy loop below. */
  lemma Associative<T>(a: seq<T>, b: seq<T>, c: seq<T>)
    ensures (a + b) + c == a + (b + c)
  {
  }

  /** A plain sequence helper for the enemy loop below: replacing element `i`
      of `done + rest[i..]`, where `done` has `i` elements. */
  lemma Splice<T>(done: seq<T>, rest: seq<T>, i: nat, x: T)
    requires |done| == i < |rest|
    ensures (done + rest[i..])[i := x] == (done + [x]) + rest[i + 1..]
  {
  }

  /** The loop state of the enemy pass after one more callback: the array with
      element `i` replaced, the hazards with the new shots appended, and the
      vitals after the contact. */
  lemma EnemyPassAdvance(es: seq<Enemy>, hs: seq<EnemyBullet>, ds: seq<Draw>, i: nat, p: Box, v: Vitals, cfg: Config)
    requires i < |es| == |ds| && ValidDraws(ds)
    ensures ValidDraws(ds[..i + 1]) && ValidDraw(ds[i])
    ensures var w := EnemyPass(es[..i], ds[..i], p, v, cfg);
      var t := EnemyStep(es[i], p, ds[i], cfg);
      var w2 := EnemyPass(es[..i + 1], ds[..i + 1], p, v, cfg);
      && |w.enemies| == i
      && (w.enemies + es[i..])[i := t.enemy] == w2.enemies + es[i + 1..]
      && (hs + w.spawned) + t.spawned == hs + w2.spawned
      && w2.vitals == Contact(w.vitals, Overlaps(p, t.enemy.box))
  {
    EnemyPassNext(es, ds, i, p, v, cfg);
    EnemyPassLength(es[..i], ds[..i], p, v, cfg);
    var w := EnemyPass(es[..i], ds[..i], p, v, cfg);
    var t := EnemyStep(es[i], p, ds[i], cfg);
    Splice(w.enemies, es, i, t.enemy);
    Associative(hs, w.spawned, t.spawned);
  }

  class World {
    const cfg: Config
    const layout: Layout
    var player: Player
    var enemies: seq<Enemy>
    var bullets: seq<Bullet>
    var enemyBullets: seq<EnemyBullet>
    var obstacles: seq<Box>
    var backgroundX: real
    var score: int
    var playerHealth: int
    var gameOver: bool
    var gameWon: bool
    var gameRunning: bool
    /** Whether a click on the start button has got through. */
    var gameHasStarted: bool
    var input: Input

    ghost predicate Valid()
      reads this
    {
      Invariant(cfg, backgroundX, enemies, gameOver, playerHealth, input)
    }

    function PlayerVitals(): Vitals
      reads this, player
    {
      Vitals(playerHealth, player.invulnerable, player.invulnerableTimer, gameOver)
    }

    function PlayerBox(): Box
      reads this, player
    {
      BoxOf(player.State(), cfg)
    }

    /** The whole state of the session as one value. */
    function Snapshot(): Session
      reads this, player
    {
      Session(player.State(), enemies, bullets, enemyBullets, obstacles, backgroundX, score,
              playerHealth, gameOver, gameWon, gameRunning, input)
    }

    /** The globals as the script declares them, before any session starts. */
    constructor (c: Config)
      requires c.Valid()
      ensures Valid() && cfg == c && layout == ButtonAreas(c.gameWidth, c.gameHeight)
      ensures enemies == [] && bullets == [] && enemyBullets == [] && obstacles == []
      ensures backgroundX == 0.0 && score == 0 && playerHealth == StartHealth
      ensures !gameOver && !gameWon && !gameRunning && !gameHasStarted && input == NoInput
    {
      cfg := c;
      layout := ButtonAreas(c.gameWidth, c.gameHeight);
      player := new Player(0.0, 0.0);
      enemies, bullets, enemyBullets, obstacles := [], [], [], [];
      backgroundX, score, playerHealth := 0.0, 0, StartHealth;
      gameOver, gameWon, gameRunning, gameHasStarted := false, false, false, false;
      input := NoInput;
    }

    /** `initGame`: flags, health, score and scroll reset; the collections are
        replaced by a fresh player and the fixed level. */
    method InitGame(timers: seq<real>)
      requires cfg.Valid() && Consistent(input) && ValidTimers(timers)
      modifies this`obstacles, this`enemies, this`gameOver, this`gameWon, this`playerHealth, this`score,
               this`backgroundX, this`bullets, this`enemyBullets, this`player
      ensures Valid() && fresh(player)
      ensures Snapshot() == NewSession(cfg, timers, old(input), old(gameRunning))
      ensures player.State() == PlayerState(100.0 * cfg.scale, cfg.gameHeight - (80.0 + 10.0) * cfg.scale,
                                            0.0, 0.0, false, true, false, 0, false, 0, 0)
      ensures !gameOver && !gameWon && playerHealth == StartHealth && score == 0 && backgroundX == 0.0
      ensures bullets == [] && enemyBullets == []
      ensures obstacles == LevelObstacles(cfg) && enemies == LevelEnemies(cfg, timers)
      ensures gameRunning == old(gameRunning) && input == old(input) && gameHasStarted == old(gameHasStarted)
    {
      LoadLevel(timers);
      var p := new Player(100.0 * cfg.scale, cfg.gameHeight - (80.0 + 10.0) * cfg.scale);
      gameOver, gameWon, playerHealth, score, backgroundX, bullets, enemyBullets, player :=
        false, false, StartHealth, 0, 0.0, [], [], p;
      assert Snapshot() == NewSession(cfg, timers, input, gameRunning);
      assert Holds(Snapshot(), cfg) by { NewSessionHolds(cfg, timers, input, gameRunning); }
    }

    /** The level layout part of `initGame`. */
    method LoadLevel(timers: seq<real>)
      requires cfg.Valid() && ValidTimers(timers)
      modifies this`obstacles, this`enemies
      ensures obstacles == LevelObstacles(cfg) && enemies == LevelEnemies(cfg, timers)
    {
      obstacles := LevelObstacles(cfg);
      enemies := LevelEnemies(cfg, timers);
    }

    /** One call of `gameLoop`, without drawing: the new session is `GameLoop`
        of the old one, whose effects `Frame.GameLoopRules` states. A finished
        game stops running; otherwise the camera eases towards the player, the
        player updates, the enemies update and touch the player, the player's
        bullets and then the enemies' bullets are filtered. */
    method Tick(draws: seq<Draw>)
      requires Valid() && |draws| == |enemies| && ValidDraws(draws)
      modifies this, player
      ensures Valid() && player == old(player)
      ensures Snapshot() == GameLoop(old(Snapshot()), draws, cfg)
      ensures gameHasStarted == old(gameHasStarted)
    {
      ghost var s0 := Snapshot();
      if gameOver || gameWon {
        gameRunning := false;
        assert Holds(GameLoop(s0, draws, cfg), cfg) by { GameLoopRules(s0, draws, cfg); }
        return;
      }
      gameRunning := true;
      ghost var started := gameHasStarted;
      ScrollAndUpdatePlayer();
      assert gameHasStarted == started;
      EnemyPhase(draws);
      assert gameHasStarted == started;
      BulletPhase();
      assert gameHasStarted == started;
      HazardPhase();
      assert gameHasStarted == started;
      assert Holds(GameLoop(s0, draws, cfg), cfg) by { GameLoopRules(s0, draws, cfg); }
    }

    /** The camera and `player.update`: the `ScrollStage` and `PlayerStage`
        of `GameLoop`; what they keep is `Frame.PlayerStageRules`. */
    method ScrollAndUpdatePlayer()
      requires cfg.Valid()
      modifies this`backgroundX, this`bullets, this`input, player
      ensures Snapshot() == PlayerStage(ScrollStage(old(Snapshot()), cfg), cfg)
    {
      ScrollCamera();
      UpdatePlayer();
    }

    /** The `enemies.forEach`: the `EnemyStage` of `GameLoop`; what it keeps is
        `Frame.EnemyStageRules`. */
    method EnemyPhase(draws: seq<Draw>)
      requires |draws| == |enemies| && ValidDraws(draws)
      modifies this`enemies, this`enemyBullets, this`playerHealth, this`gameOver, player`invulnerable, player`invulnerableTimer
      ensures Snapshot() == EnemyStage(old(Snapshot()), draws, cfg)
    {
      ghost var s0 := Snapshot();
      UpdateEnemies(draws);
      assert Snapshot() == WithVitals(s0.(enemies := enemies, hazards := enemyBullets), PlayerVitals());
    }

    /** The filter over the player's bullets: the `BulletStage` of `GameLoop`;
        what it keeps is `Frame.BulletStageRules`. */
    method BulletPhase()
      modifies this`bullets, this`enemies, this`gameWon
      ensures Snapshot() == BulletStage(old(Snapshot()), cfg)
    {
      UpdateBullets();
    }

    /** The filter over the enemies' bullets: the `HazardStage` of `GameLoop`;
        what it keeps is `Frame.HazardStageRules`. */
    method HazardPhase()
      modifies this`enemyBullets, this`playerHealth, this`gameOver, player`invulnerable, player`invulnerableTimer
      ensures Snapshot() == HazardStage(old(Snapshot()), cfg)
    {
      ghost var s0 := Snapshot();
      UpdateEnemyBullets();
      assert Snapshot() == WithVitals(s0.(hazards := enemyBullets), PlayerVitals());
    }

    /** `restartGameOnce`: only a finished session that is no longer running is
        restarted; anything else leaves the game as it is. */
    method RestartGameOnce(timers: seq<real>) returns (restarted: bool)
      requires Valid() && ValidTimers(timers)
      modifies this
      ensures Valid()
      ensures Snapshot() == Restart(old(Snapshot()), cfg, timers)
      ensures restarted <==> !old(gameRunning) && (old(gameOver) || old(gameWon))
      ensures input == old(input) && gameHasStarted == old(gameHasStarted)
      ensures restarted ==> && fresh(player) && gameRunning && !gameOver && !gameWon
                            && playerHealth == StartHealth && bullets == [] && enemyBullets == []
                            && enemies == LevelEnemies(cfg, timers) && obstacles == LevelObstacles(cfg)
                            && backgroundX == 0.0 && score == 0
                            && player.State() == NewSession(cfg, timers, input, true).player
      ensures !restarted ==> && player == old(player) && Snapshot() == old(Snapshot())
                             && enemies == old(enemies) && bullets == old(bullets)
                             && enemyBullets == old(enemyBullets) && playerHealth == old(playerHealth)
                             && gameOver == old(gameOver) && gameWon == old(gameWon)
                             && gameRunning == old(gameRunning) && backgroundX == old(backgroundX)
                             && obstacles == old(obstacles) && score == old(score)
    {
      restarted := !gameRunning && (gameOver || gameWon);
      if restarted {
        gameOver, gameWon := false, false;
        InitGame(timers);
        gameRunning := true;
      }
    }

    /** `handleStartGameClick`: the second way into a session. It is ignored
        while the assets are loading (`assetsReady` false) or while a started
        game is running; otherwise it resizes the canvas, which releases the
        four buttons, and then does what a restart does, whether or not the
        current game has ended. */
    method HandleStartGameClick(timers: seq<real>, assetsReady: bool) returns (begun: bool)
      requires Valid() && ValidTimers(timers)
      modifies this
      ensures Valid()
      ensures Snapshot() == Start(old(Snapshot()), cfg, timers, old(gameHasStarted), assetsReady)
      ensures begun <==> assetsReady && !(old(gameHasStarted) && old(gameRunning))
      ensures begun ==> fresh(player) && gameHasStarted
      ensures !begun ==> player == old(player) && gameHasStarted == old(gameHasStarted)
    {
      begun := assetsReady && !(gameHasStarted && gameRunning);
      if begun {
        HandleResize();
        InitGame(timers);
        // the script clears `gameOver` and `gameWon` again here; `initGame` already has
        gameHasStarted, gameRunning := true, true;
      }
    }

    /** `Player.takeDamage`, with the health and game-over globals it writes. */
    method TakeDamage()
      modifies this`playerHealth, this`gameOver, player`invulnerable, player`invulnerableTimer
      ensures PlayerVitals() == Hurt(old(PlayerVitals()))
    {
      playerHealth, gameOver := player.TakeDamage(playerHealth, gameOver);
    }

    /** The scrolling lines of `gameLoop`. */
    method ScrollCamera()
      modifies this`backgroundX
      ensures backgroundX == Eased(old(backgroundX), TargetScroll(player.x, cfg.gameWidth, cfg.LevelWidth()))
    {
      var target := player.x - cfg.gameWidth / 3.5;
      var levelWidth := cfg.LevelWidth();
      target := Max(0.0, Min(target, levelWidth - cfg.gameWidth));
      backgroundX := backgroundX + (target - backgroundX) * 0.1;
    }

    /** `player.update(backgroundX)` with the globals it reads and writes: the
        held buttons and latches in, the consumed latches and the appended
        bullet out. */
    method UpdatePlayer()
      requires cfg.Valid()
      modifies player, this`bullets, this`input
      ensures var r := Step(old(player.State()), ControlsOf(old(input)), backgroundX, obstacles, cfg);
        && player.State() == r.player
        && bullets == old(bullets) + (if r.shot.Some? then [r.shot.value] else [])
        && input == Consume(old(input), r.jumped, r.shot.Some?)
    {
      var c := ControlsOf(input);
      var jumped, shot := player.Update(c, backgroundX, obstacles, cfg);
      if jumped {
        input := input.(jumpPressed := false, jumpHeld := false);
      }
      if shot.Some? {
        bullets := bullets + [shot.value];
        input := input.(shootPressed := false, shootHeld := false);
      }
    }

    /** `enemy.update(player.x, backgroundX)` for the enemy at index `i`, with
        `shoot` and `shootSpread` appending to the hazard list; `p` is the
        player's box and `d` the browser's draws for this call. */
    method UpdateEnemy(i: nat, d: Draw, p: Box)
      requires i < |enemies| && ValidDraw(d)
      modifies this`enemies, this`enemyBullets
      ensures var t := EnemyStep(old(enemies[i]), p, d, cfg);
        enemies == old(enemies)[i := t.enemy] && enemyBullets == old(enemyBullets) + t.spawned
    {
      var e := enemies[i];
      ghost var t := EnemyStep(e, p, d, cfg);
      e := e.(actionFrameTimer := e.actionFrameTimer - 1);
      if e.actionFrameTimer <= 0 { e := e.(isShooting := false); }
      var dist := HorizontalDist(e.box, p);
      match e.kind {
        case A =>
          e := e.(shootTimer := e.shootTimer - 1.0);
          if e.shootTimer <= 0.0 && VerticalDiff(e.box, p) < cfg.gameHeight * 0.6 && dist < cfg.gameWidth * 0.9 {
            enemyBullets := enemyBullets + [Hazard(e.box, 8.0 * cfg.scale, d.aimed)];
            e := e.(shootTimer := 120.0 + d.r * 60.0, isShooting := true, actionFrameTimer := ActionFrameDuration);
          }
        case B =>
          var vx := 2.0 * cfg.scale * e.moveDirection as real;
          e := e.(vx := vx, box := e.box.(x := e.box.x + vx));
          if Abs(e.box.x - e.initialX) > e.moveRange {
            e := e.(moveDirection := -e.moveDirection, box := e.box.(x := e.box.x + vx));
          }
          e := e.(animationFrame := e.animationFrame + 1);
          assert e == t.enemy;
        case C =>
          e := e.(shootTimer := e.shootTimer - 1.0);
          if e.shootTimer <= 0.0 && dist < cfg.gameWidth * 1.1 {
            ShootSpread(e.box, d.fan);
            e := e.(shootTimer := 150.0 + d.r * 80.0, isShooting := true, actionFrameTimer := ActionFrameDuration);
          }
      }
      enemies := enemies[i := e];
    }

    /** The `enemies.forEach` of `gameLoop`: each enemy is updated, then the
        player, if not invulnerable and touching it, takes damage. `draws[k]`
        holds the browser's draws for enemy `k`. */
    method UpdateEnemies(draws: seq<Draw>)
      requires |draws| == |enemies| && ValidDraws(draws)
      modifies this`enemies, this`enemyBullets, this`playerHealth, this`gameOver, player`invulnerable, player`invulnerableTimer
      ensures var w := EnemyPass(old(enemies), draws, old(PlayerBox()), old(PlayerVitals()), cfg);
        && enemies == w.enemies && enemyBullets == old(enemyBullets) + w.spawned && PlayerVitals() == w.vitals
    {
      ghost var es0, hs0, v0 := enemies, enemyBullets, PlayerVitals();
      var p := PlayerBox();
      var i := 0;
      while i < |enemies|
        invariant 0 <= i <= |es0| == |enemies|
        invariant ValidDraws(draws[..i])
        invariant var w := EnemyPass(es0[..i], draws[..i], p, v0, cfg);
          && enemies == w.enemies + es0[i..] && enemyBullets == hs0 + w.spawned && PlayerVitals() == w.vitals
      {
        EnemyPassAdvance(es0, hs0, draws, i, p, v0, cfg);
        assert enemies[i] == es0[i];
        VisitEnemy(i, draws[i], p);
        i := i + 1;
      }
      assert es0[..i] == es0 && draws[..i] == draws;
    }

    /** One callback of that `forEach`. */
    method VisitEnemy(i: nat, d: Draw, p: Box)
      requires i < |enemies| && ValidDraw(d)
      modifies this`enemies, this`enemyBullets, this`playerHealth, this`gameOver, player`invulnerable, player`invulnerableTimer
      ensures var t := EnemyStep(old(enemies[i]), p, d, cfg);
        && enemies == old(enemies)[i := t.enemy] && enemyBullets == old(enemyBullets) + t.spawned
        && PlayerVitals() == Contact(old(PlayerVitals()), Overlaps(p, t.enemy.box))
    {
      UpdateEnemy(i, d, p);
      if !player.invulnerable && CheckCollision(p, player.vy, enemies[i].box).colliding {
        TakeDamage();
      }
    }

    /** `bullets = bullets.filter(...)`: each player bullet in order moves,
        damages the first enemy it touches, and survives only if it hit nothing
        and is still on screen. */
    method UpdateBullets()
      modifies this`bullets, this`enemies, this`gameWon
      ensures var v := BulletPass(old(bullets), old(enemies), old(gameWon), backgroundX, cfg.gameWidth);
        && bullets == v.kept && enemies == v.enemies && gameWon == v.won
    {
      var bs := bullets;
      var kept := [];
      for n := 0 to |bs|
        invariant var v := BulletPass(bs[..n], old(enemies), old(gameWon), backgroundX, cfg.gameWidth);
          && kept == v.kept && enemies == v.enemies && gameWon == v.won
      {
        assert bs[..n + 1][..n] == bs[..n];
        var keep, moved := StepBullet(bs[n]);
        if keep {
          kept := kept + [moved];
        }
      }
      assert bs[..|bs|] == bs;
      bullets := kept;
    }

    /** The callback of that filter for one bullet: whether to keep it, and the
        moved bullet. */
    method StepBullet(b: Bullet) returns (keep: bool, moved: Bullet)
      modifies this`enemies, this`gameWon
      ensures var s := BulletStep(b, old(enemies), old(gameWon), backgroundX, cfg.gameWidth);
        && keep == s.keep && moved == s.bullet && enemies == s.enemies && gameWon == s.won
    {
      moved := Advance(b);
      var hit := false;
      var j := 0;
      while j < |enemies| && !BulletTouches(moved.box, enemies[j].box)
        invariant 0 <= j <= |enemies|
        invariant forall q :: 0 <= q < j ==> !BulletTouches(moved.box, enemies[q].box)
      {
        j := j + 1;
      }
      if j < |enemies| {
        assert FirstHit(moved.box, enemies) == Some(j);
        hit := true;
        var e := Enemies.TakeDamage(enemies[j], 1);
        if e.health <= 0 {
          if e.kind == C { gameWon := true; }
          enemies := enemies[..j] + enemies[j + 1..];
        } else {
          enemies := enemies[j := e];
        }
      } else {
        assert FirstHit(moved.box, enemies) == None;
      }
      keep := !hit && OnScreenX(moved.box, backgroundX, cfg.gameWidth);
    }

    /** `enemyBullets = enemyBullets.filter(...)`: each hazard in order moves;
        one that touches a player who is not invulnerable hurts the player and
        is dropped; the rest survive while on screen. */
    method UpdateEnemyBullets()
      modifies this`enemyBullets, this`playerHealth, this`gameOver, player`invulnerable, player`invulnerableTimer
      ensures var r := HazardPass(old(enemyBullets), old(PlayerBox()), old(PlayerVitals()), backgroundX, cfg);
        && enemyBullets == r.kept && PlayerVitals() == r.vitals
    {
      var hs := enemyBullets;
      var p := PlayerBox();
      ghost var v0 := PlayerVitals();
      var kept := [];
      for n := 0 to |hs|
        invariant var r := HazardPass(hs[..n], p, v0, backgroundX, cfg);
          && kept == r.kept && PlayerVitals() == r.vitals
      {
        assert hs[..n + 1][..n] == hs[..n];
        var keep, moved := StepHazard(hs[n], p);
        if keep {
          kept := kept + [moved];
        }
      }
      assert hs[..|hs|] == hs;
      enemyBullets := kept;
    }

    /** The callback of that filter for one hazard. */
    method StepHazard(h: EnemyBullet, p: Box) returns (keep: bool, moved: EnemyBullet)
      modifies this`playerHealth, this`gameOver, player`invulnerable, player`invulnerableTimer
      ensures var g := HazardStep(h, p, old(PlayerVitals()), backgroundX, cfg);
        && keep == g.keep && moved == g.hazard && PlayerVitals() == g.vitals
    {
      moved := AdvanceHazard(h);
      var hitPlayer := false;
      if !player.invulnerable && CheckCollision(p, player.vy, moved.box).colliding {
        TakeDamage();
        hitPlayer := true;
      }
      keep := !hitPlayer && OnScreen(moved.box, backgroundX, cfg);
    }

    /** `shootSpread`: five hazards from the boss's centre, in firing order. */
    method ShootSpread(at: Box, fan: seq<Velocity>)
      requires |fan| == 5
      modifies this`enemyBullets
      ensures enemyBullets == old(enemyBullets) + Fan(at, cfg, fan)
    {
      for k := 0 to 5
        invariant enemyBullets == old(enemyBullets) + Fan(at, cfg, fan[..k])
      {
        assert Fan(at, cfg, fan[..k + 1]) == Fan(at, cfg, fan[..k]) + [Hazard(at, 10.0 * cfg.scale, fan[k])];
        enemyBullets := enemyBullets + [Hazard(at, 10.0 * cfg.scale, fan[k])];
      }
      assert fan[..5] == fan;
    }

    /** `handleCanvasInputStart` for the changed touches of one event. */
    method HandleInputStart(touches: seq<TouchPoint>)
      requires Valid()
      modifies this`input
      ensures Valid() && input == PressAll(old(input), layout, touches)
    {
      PressAllKeepsConsistent(input, layout, touches);
      for k := 0 to |touches|
        invariant input == PressAll(old(input), layout, touches[..k])
      {
        assert touches[..k + 1][..k] == touches[..k];
        input := Press(input, layout, touches[k]);
      }
      assert touches[..|touches|] == touches;
    }

    /** `handleCanvasInputEnd` for the changed touches of one event. */
    method HandleInputEnd(touches: seq<TouchPoint>)
      requires Valid()
      modifies this`input
      ensures Valid() && input == ReleaseAll(old(input), touches)
    {
      ReleaseAllKeepsConsistent(input, touches);
      for k := 0 to |touches|
        invariant input == ReleaseAll(old(input), touches[..k])
      {
        assert touches[..k + 1][..k] == touches[..k];
        input := Release(input, touches[k]);
      }
      assert touches[..|touches|] == touches;
    }

    /** `resizeCanvas` as the window's resize event runs it, with the viewport
        unchanged: `defineButtonAreas` rebuilds the four buttons unpressed. */
    method HandleResize()
      requires Valid()
      modifies this`input
      ensures Valid() && input == ReleaseButtons(old(input))
    {
      input := ReleaseButtons(input);
    }
  }
}
