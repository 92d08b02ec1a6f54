/** Projectiles and the two filter passes of the game loop: player bullets
    against enemies, and enemy hazards against the player. */
module Projectiles {
  import opened Settings
  import opened Geometry
  import opened Enemies
  import opened Damage

  /** A player bullet: it only moves horizontally. */
  datatype Bullet = Bullet(box: Box, vx: real)

  /** `Bullet.update`: one constant-velocity step. */
  function Advance(b: Bullet): (r: Bullet)
    ensures r.box.x == b.box.x + b.vx && r.vx == b.vx
    ensures r.box.y == b.box.y && r.box.w == b.box.w && r.box.h == b.box.h
  {
    b.(box := b.box.(x := b.box.x + b.vx))
  }

  /** `EnemyBullet.update`: one constant-velocity step along both axes. */
  function AdvanceHazard(h: EnemyBullet): (r: EnemyBullet)
    ensures r.box.x == h.box.x + h.vel.vx && r.box.y == h.box.y + h.vel.vy
    ensures r.vel == h.vel && r.box.w == h.box.w && r.box.h == h.box.h
  {
    h.(box := h.box.(x := h.box.x + h.vel.vx, y := h.box.y + h.vel.vy))
  }

  /** Horizontally inside the scrolled viewport. */
  predicate OnScreenX(b: Box, scroll: real, gameWidth: real) {
    b.x - scroll < gameWidth && b.x - scroll + b.w > 0.0
  }

  /** Inside the scrolled viewport on both axes. */
  predicate OnScreen(b: Box, scroll: real, cfg: Config) {
    OnScreenX(b, scroll, cfg.gameWidth) && b.y < cfg.gameHeight && b.y + b.h > 0.0
  }

  /** The enemy a bullet box hits: the first one in array order it touches. */
  function FirstHit(b: Box, es: seq<Enemy>): (k: Option<nat>)
    ensures k.Some? ==> k.value < |es| && BulletTouches(b, es[k.value].box)
    ensures k.Some? ==> forall j :: 0 <= j < k.value ==> !BulletTouches(b, es[j].box)
    ensures k.None? ==> forall j :: 0 <= j < |es| ==> !BulletTouches(b, es[j].box)
    decreases |es|
  {
    if |es| == 0 then None
    else if BulletTouches(b, es[0].box) then Some(0)
    else
      match FirstHit(b, es[1..])
      case None => None
      case Some(k) => Some(k + 1)
  }

  /** Result of one bullet of the pass. */
  datatype Shot = Shot(keep: bool, bullet: Bullet, enemies: seq<Enemy>, won: bool)

  /** One call of the player-bullet filter callback: the bullet moves; the first
      enemy it touches loses one health point and is spliced out of the array
      once its health is at or below zero, which wins the game if it is the
      boss; a bullet that hit is dropped, one that missed is kept while it is
      horizontally on screen. */
  function BulletStep(b: Bullet, es: seq<Enemy>, won: bool, scroll: real, gameWidth: real): Shot {
    var b' := Advance(b);
    match FirstHit(b'.box, es)
    case None => Shot(OnScreenX(b'.box, scroll, gameWidth), b', es, won)
    case Some(k) =>
      var e := TakeDamage(es[k], 1);
      if e.health <= 0 then Shot(false, b', es[..k] + es[k + 1..], won || e.kind == C)
      else Shot(false, b', es[k := e], won)
  }

  /** The whole player-bullet pass, bullet by bullet in array order. */
  datatype Volley = Volley(kept: seq<Bullet>, enemies: seq<Enemy>, won: bool)

  function BulletPass(bs: seq<Bullet>, es: seq<Enemy>, won: bool, scroll: real, gameWidth: real): Volley
    decreases |bs|
  {
    if |bs| == 0 then Volley([], es, won)
    else
      var v := BulletPass(bs[..|bs| - 1], es, won, scroll, gameWidth);
      var s := BulletStep(bs[|bs| - 1], v.enemies, v.won, scroll, gameWidth);
      Volley(if s.keep then v.kept + [s.bullet] else v.kept, s.enemies, s.won)
  }

  /** Number of bosses in an enemy array. */
  function Bosses(es: seq<Enemy>): nat
    decreases |es|
  {
    if |es| == 0 then 0 else (if es[0].kind == C then 1 else 0) + Bosses(es[1..])
  }

  lemma {:induction false} BossesAppend(a: seq<Enemy>, b: seq<Enemy>)
    ensures Bosses(a + b) == Bosses(a) + Bosses(b)
    decreases |a|
  {
    if |a| == 0 {
      assert a + b == b;
    } else {
      assert (a + b)[1..] == a[1..] + b;
      BossesAppend(a[1..], b);
    }
  }

  /** Splicing out enemy `k` removes one boss exactly when `k` is a boss. */
  lemma {:induction false} BossesSplice(es: seq<Enemy>, k: nat)
    requires k < |es|
    ensures Bosses(es[..k] + es[k + 1..]) + (if es[k].kind == C then 1 else 0) == Bosses(es)
  {
    var pre, rest := es[..k], es[k + 1..];
    var tail := [es[k]] + rest;
    assert es == pre + tail;
    BossesAppend(pre, tail);
    BossesAppend(pre, rest);
    assert tail[1..] == rest;
    assert Bosses(tail) == (if es[k].kind == C then 1 else 0) + Bosses(rest);
  }

  /** Replacing an enemy by one of the same kind keeps the number of bosses. */
  lemma {:induction false} BossesUpdate(es: seq<Enemy>, k: nat, e: Enemy)
    requires k < |es| && e.kind == es[k].kind
    ensures Bosses(es[k := e]) == Bosses(es)
  {
    var pre, rest := es[..k], es[k + 1..];
    var before, after := [es[k]] + rest, [e] + rest;
    assert es == pre + before;
    assert es[k := e] == pre + after;
    BossesAppend(pre, before);
    BossesAppend(pre, after);
    assert before[1..] == rest && after[1..] == rest;
  }

  /** The boss count only looks at the kinds. */
  lemma {:induction false} BossesPointwise(a: seq<Enemy>, b: seq<Enemy>)
    requires |a| == |b| && forall i :: 0 <= i < |a| ==> a[i].kind == b[i].kind
    ensures Bosses(a) == Bosses(b)
    decreases |a|
  {
    if |a| > 0 {
      BossesPointwise(a[1..], b[1..]);
    }
  }

  /** A bullet that touches no enemy after its step changes no enemy and is
      kept exactly while it is horizontally on screen. */
  lemma BulletMisses(b: Bullet, es: seq<Enemy>, won: bool, scroll: real, gameWidth: real)
    requires forall j :: 0 <= j < |es| ==> !BulletTouches(Advance(b).box, es[j].box)
    ensures var s := BulletStep(b, es, won, scroll, gameWidth);
      s.enemies == es && s.won == won && s.bullet == Advance(b)
      && (s.keep <==> OnScreenX(Advance(b).box, scroll, gameWidth))
  {
  }

  /** A bullet whose step ends touching enemy `k`, and no enemy before it,
      damages that enemy alone, by exactly one point, and is dropped; the enemy
      is removed exactly when its health reaches zero or below, and the game is
      won by that removal exactly when the enemy is the boss. */
  lemma BulletHitsFirst(b: Bullet, es: seq<Enemy>, won: bool, scroll: real, gameWidth: real, k: nat)
    requires k < |es| && BulletTouches(Advance(b).box, es[k].box)
    requires forall j :: 0 <= j < k ==> !BulletTouches(Advance(b).box, es[j].box)
    ensures var s := BulletStep(b, es, won, scroll, gameWidth);
      && !s.keep
      && (forall j :: 0 <= j < k ==> j < |s.enemies| && s.enemies[j] == es[j])
      && (es[k].health <= 1 ==>
            && |s.enemies| == |es| - 1
            && (forall j :: k <= j < |es| - 1 ==> s.enemies[j] == es[j + 1])
            && (s.won <==> won || es[k].kind == C))
      && (es[k].health > 1 ==>
            && |s.enemies| == |es|
            && s.enemies[k] == es[k].(health := es[k].health - 1)
            && (forall j :: k < j < |es| ==> s.enemies[j] == es[j])
            && s.won == won)
  {
  }

  /** Counting facts of one bullet step. */
  lemma BulletStepCounts(b: Bullet, es: seq<Enemy>, won: bool, scroll: real, gameWidth: real, cfg: Config)
    ensures var s := BulletStep(b, es, won, scroll, gameWidth);
      && |es| - 1 <= |s.enemies| <= |es|
      && Bosses(s.enemies) <= Bosses(es)
      && (s.won <==> won || Bosses(s.enemies) < Bosses(es))
      && (s.keep ==> OnScreenX(s.bullet.box, scroll, gameWidth))
      && ((forall e | e in es :: PatrolInvariant(e, cfg)) ==> forall e | e in s.enemies :: PatrolInvariant(e, cfg))
  {
    var b' := Advance(b);
    match FirstHit(b'.box, es)
    case None =>
    case Some(k) =>
      var e := TakeDamage(es[k], 1);
      if e.health <= 0 {
        BossesSplice(es, k);
        assert forall x | x in es[..k] + es[k + 1..] :: x in es;
      } else {
        BossesUpdate(es, k, e);
        assert es[k] in es;
        assert PatrolInvariant(es[k], cfg) ==> PatrolInvariant(e, cfg);
        assert forall x | x in es[k := e] :: x in es || x == e;
      }
  }

  /** Over a whole pass: no more bullets are kept than there were, each bullet
      removes at most one enemy, the game is won exactly when a boss was
      removed, kept bullets are on screen and patrols stay well-formed. */
  lemma {:induction false} BulletPassCounts(bs: seq<Bullet>, es: seq<Enemy>, won: bool, scroll: real, gameWidth: real, cfg: Config)
    ensures var v := BulletPass(bs, es, won, scroll, gameWidth);
      && |v.kept| <= |bs|
      && |es| - |bs| <= |v.enemies| <= |es|
      && Bosses(v.enemies) <= Bosses(es)
      && (v.won <==> won || Bosses(v.enemies) < Bosses(es))
      && (forall x | x in v.kept :: OnScreenX(x.box, scroll, gameWidth))
      && ((forall e | e in es :: PatrolInvariant(e, cfg)) ==> forall e | e in v.enemies :: PatrolInvariant(e, cfg))
    decreases |bs|
  {
    if |bs| > 0 {
      var v := BulletPass(bs[..|bs| - 1], es, won, scroll, gameWidth);
      BulletPassCounts(bs[..|bs| - 1], es, won, scroll, gameWidth, cfg);
      BulletStepCounts(bs[|bs| - 1], v.enemies, v.won, scroll, gameWidth, cfg);
    }
  }

  /** Result of one hazard of the enemy-bullet pass. */
  datatype Graze = Graze(keep: bool, hazard: EnemyBullet, vitals: Vitals)

  /** One call of the enemy-bullet filter callback: the hazard moves; if the
      player is not invulnerable and touches it, the player takes damage and the
      hazard is dropped (`checkCollision(..).colliding` is `Overlaps`); otherwise it is kept while it is on screen. */
  function HazardStep(h: EnemyBullet, player: Box, v: Vitals, scroll: real, cfg: Config): Graze {
    var h' := AdvanceHazard(h);
    var hit := !v.invulnerable && Overlaps(player, h'.box);
    Graze(!hit && OnScreen(h'.box, scroll, cfg), h', if hit then Hurt(v) else v)
  }

  datatype Barrage = Barrage(kept: seq<EnemyBullet>, vitals: Vitals)

  /** The whole enemy-bullet pass, hazard by hazard in array order. */
  function HazardPass(hs: seq<EnemyBullet>, player: Box, v: Vitals, scroll: real, cfg: Config): Barrage
    decreases |hs|
  {
    if |hs| == 0 then Barrage([], v)
    else
      var p := HazardPass(hs[..|hs| - 1], player, v, scroll, cfg);
      var g := HazardStep(hs[|hs| - 1], player, p.vitals, scroll, cfg);
      Barrage(if g.keep then p.kept + [g.hazard] else p.kept, g.vitals)
  }

  /** A hazard is removed on contact only when the player was not invulnerable,
      and then the player is hurt; any other hazard leaves the player alone and
      is kept exactly while on screen. */
  lemma HazardStepRules(h: EnemyBullet, player: Box, v: Vitals, scroll: real, cfg: Config)
    ensures var g := HazardStep(h, player, v, scroll, cfg);
      var touching := Overlaps(player, AdvanceHazard(h).box);
      && g.hazard == AdvanceHazard(h)
      && (g.vitals != v ==> !v.invulnerable && touching)
      && (!v.invulnerable && touching ==> !g.keep && g.vitals == Hurt(v))
      && (v.invulnerable ==> g.vitals == v && (g.keep <==> OnScreen(g.hazard.box, scroll, cfg)))
      && (!v.invulnerable && !touching ==> g.vitals == v && (g.keep <==> OnScreen(g.hazard.box, scroll, cfg)))
      && AtMostOneLoss(v, g.vitals)
  {
  }

  /** However many hazards touch the player in one pass, health drops by at
      most one, and not at all if the player starts the pass invulnerable. */
  lemma {:induction false} HazardPassLosesAtMostOne(hs: seq<EnemyBullet>, player: Box, v: Vitals, scroll: real, cfg: Config)
    ensures var p := HazardPass(hs, player, v, scroll, cfg);
      && AtMostOneLoss(v, p.vitals)
      && |p.kept| <= |hs|
      && (forall x | x in p.kept :: OnScreen(x.box, scroll, cfg))
    decreases |hs|
  {
    if |hs| > 0 {
      var p := HazardPass(hs[..|hs| - 1], player, v, scroll, cfg);
      HazardPassLosesAtMostOne(hs[..|hs| - 1], player, v, scroll, cfg);
      HazardStepRules(hs[|hs| - 1], player, p.vitals, scroll, cfg);
      AtMostOneLossTransitive(v, p.vitals, HazardStep(hs[|hs| - 1], player, p.vitals, scroll, cfg).vitals);
    }
  }
}
