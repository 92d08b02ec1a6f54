/** The camera: the scroll target follows the player and `backgroundX` eases
    10% of the way toward it every tick. */
module Camera {

  function Max(a: real, b: real): real { if a >= b then a else b }
  function Min(a: real, b: real): real { if a <= b then a else b }

  /** Largest scroll offset the camera may take. */
  function MaxScroll(levelWidth: real, gameWidth: real): real {
    Max(0.0, levelWidth - gameWidth)
  }

  /** The scroll offset the camera aims at: the player sits at 1/3.5 of the
      viewport width, clamped so the view stays inside the level. */
  function TargetScroll(playerX: real, gameWidth: real, levelWidth: real): (t: real)
    ensures 0.0 <= t <= MaxScroll(levelWidth, gameWidth)
    ensures 0.0 <= playerX - gameWidth / 3.5 <= levelWidth - gameWidth ==> t == playerX - gameWidth / 3.5
    ensures playerX - gameWidth / 3.5 < 0.0 ==> t == 0.0
    ensures playerX - gameWidth / 3.5 >= levelWidth - gameWidth ==> t == MaxScroll(levelWidth, gameWidth)
  {
    Max(0.0, Min(playerX - gameWidth / 3.5, levelWidth - gameWidth))
  }

  /** One easing step of `backgroundX` toward `target`. */
  function Eased(current: real, target: real): (r: real)
    ensures target - r == 0.9 * (target - current)
  {
    current + (target - current) * 0.1
  }

  /** Easing never leaves an interval that holds both the current offset and
      the target, so the scroll offset stays within the level bounds. */
  lemma EasedStaysInBounds(current: real, target: real, hi: real)
    requires 0.0 <= current <= hi && 0.0 <= target <= hi
    ensures 0.0 <= Eased(current, target) <= hi
    ensures Min(current, target) <= Eased(current, target) <= Max(current, target)
  {
  }

  /** The scroll offset after one tick stays in [0, MaxScroll] when it started there. */
  lemma ScrollStaysInBounds(current: real, playerX: real, gameWidth: real, levelWidth: real)
    requires 0.0 <= current <= MaxScroll(levelWidth, gameWidth)
    ensures 0.0 <= Eased(current, TargetScroll(playerX, gameWidth, levelWidth)) <= MaxScroll(levelWidth, gameWidth)
  {
    EasedStaysInBounds(current, TargetScroll(playerX, gameWidth, levelWidth), MaxScroll(levelWidth, gameWidth));
  }
}
