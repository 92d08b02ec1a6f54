/** Display-derived constants of the game and a small Option type.

    In the browser every length is a device-pixel length: sizes and speeds are
    multiplied by `scaleRatio` (the device pixel ratio) when the entities are
    built. Here the ratio and the canvas size are fixed parameters of a session.
 */
module Settings {

  datatype Option<T> = None | Some(value: T)

  /** The viewport as the simulation sees it: scale ratio and canvas size. */
  datatype Config = Config(scale: real, gameWidth: real, gameHeight: real) {

    predicate Valid() {
      scale > 0.0 && gameWidth > 0.0 && gameHeight > 0.0
    }

    /** Per-tick vertical acceleration (downward is positive). */
    function Gravity(): real { 0.6 * scale }
    function PlayerSpeed(): real { 6.0 * scale }
    /** The (negative, upward) vertical velocity a jump sets. */
    function JumpStrength(): real { -14.0 * scale }
    function BulletSpeed(): real { 9.0 * scale }
    /** Player sprite is 80 by 80 before scaling. */
    function PlayerSize(): real { 80.0 * scale }
    /** The level is 2000 unscaled pixels wide. */
    function LevelWidth(): real { 2000.0 * scale }
    /** Top of the player when standing on the ground line. */
    function GroundY(): real { gameHeight - PlayerSize() - 10.0 * scale }
  }

  /** Frames a shot keeps the player in the shooting pose. */
  const ShootFrameDuration: int := 15
  /** Frames between two player shots. */
  const ShootCooldown: int := 18
  /** Frames of invulnerability after the player is hit. */
  const InvulnerableDuration: int := 120
  /** Frames an enemy keeps its attack pose after firing. */
  const ActionFrameDuration: int := 20
  /** Player health at the start of a session. */
  const StartHealth: int := 3
}
