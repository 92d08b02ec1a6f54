/** Player damage: `Player.takeDamage` gated by invulnerability.

    The player's health and the game-over flag are globals of the game while the
    invulnerability flag and timer are fields of the player; `Vitals` groups the
    four so that the damage rule can be stated on one value. */
module Damage {
  import opened Settings

  datatype Vitals = Vitals(health: int, invulnerable: bool, timer: int, gameOver: bool)

  /** `Player.takeDamage`: nothing happens while invulnerable; otherwise one
      health point is lost, invulnerability starts for 120 frames and the game
      is over once health is at or below zero. */
  function Hurt(v: Vitals): (r: Vitals)
    ensures v.invulnerable ==> r == v
    ensures !v.invulnerable ==> r.health == v.health - 1 && r.invulnerable && r.timer == InvulnerableDuration
    ensures !v.invulnerable ==> (r.gameOver <==> v.gameOver || r.health <= 0)
  {
    if v.invulnerable then v
    else
      var h := v.health - 1;
      Vitals(h, true, InvulnerableDuration, v.gameOver || h <= 0)
  }

  /** One contact check of the game loop: `takeDamage` is called only when the
      player is not invulnerable and touches the other object. */
  function Contact(v: Vitals, touching: bool): Vitals {
    if !v.invulnerable && touching then Hurt(v) else v
  }

  /** What a run of contact checks may do to the vitals: health never rises and
      drops by at most one; once it has dropped the player is invulnerable; an
      invulnerable player is not changed at all. */
  ghost predicate AtMostOneLoss(v: Vitals, w: Vitals) {
    && v.health - 1 <= w.health <= v.health
    && (w.health < v.health ==> w.invulnerable)
    && (v.invulnerable ==> w == v)
    && (v.gameOver ==> w.gameOver)
    && (Coherent(v) ==> Coherent(w))
  }

  /** The game-over flag agrees with the health. */
  predicate Coherent(v: Vitals) {
    v.gameOver <==> v.health <= 0
  }

  lemma ContactLosesAtMostOne(v: Vitals, touching: bool)
    ensures AtMostOneLoss(v, Contact(v, touching))
  {
  }

  /** Two runs of contact checks in a row still lose at most one point: the
      first loss makes the player invulnerable and stops the second run. */
  lemma AtMostOneLossTransitive(u: Vitals, v: Vitals, w: Vitals)
    requires AtMostOneLoss(u, v) && AtMostOneLoss(v, w)
    ensures AtMostOneLoss(u, w)
  {
    if v.health < u.health {
      assert v.invulnerable;
    }
  }
}
