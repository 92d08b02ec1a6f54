/** Axis-aligned boxes and the collision tests of game.js. */
module Geometry {

  /** A box with left edge `x`, top edge `y` and extent `w` by `h`
      (screen coordinates: y grows downward). */
  datatype Box = Box(x: real, y: real, w: real, h: real)

  datatype Point = Point(x: real, y: real)

  /** Open overlap of two boxes: boxes that only share an edge do not overlap. */
  predicate Overlaps(a: Box, b: Box) {
    a.x + a.w > b.x && a.x < b.x + b.w && a.y + a.h > b.y && a.y < b.y + b.h
  }

  /** Result of `Player.checkCollision`. */
  datatype Collision = Collision(colliding: bool, fromAbove: bool)

  /** `Player.checkCollision`: the mover box `m`, falling at `vy`, against `other`.
      `fromAbove` is a one-tick look-back: the mover's bottom, moved back by
      1.1 times its vertical speed, was at or above the top of `other`. */
  function CheckCollision(m: Box, vy: real, other: Box): (c: Collision)
    ensures c.colliding <==> Overlaps(m, other)
    ensures c.fromAbove <==> Overlaps(m, other) && vy > 0.0 && m.y + m.h - vy * 1.1 <= other.y
  {
    var colliding := m.x + m.w > other.x && m.x < other.x + other.w
                     && m.y + m.h > other.y && m.y < other.y + other.h;
    Collision(colliding, colliding && vy > 0.0 && (m.y + m.h) - vy * 1.1 <= other.y)
  }

  /** The bullet-against-enemy test written inline in the game loop: the same
      open overlap, stated from the bullet's side. */
  predicate BulletTouches(b: Box, e: Box) {
    b.x < e.x + e.w && b.x + b.w > e.x && b.y < e.y + e.h && b.y + b.h > e.y
  }

  lemma BulletTouchesIsOverlap(b: Box, e: Box)
    ensures BulletTouches(b, e) <==> Overlaps(b, e)
    ensures Overlaps(b, e) <==> Overlaps(e, b)
  {
  }

  /** Boxes that only touch along a vertical or horizontal edge do not collide. */
  lemma TouchingEdgesDoNotCollide(a: Box, b: Box)
    requires a.x + a.w == b.x || b.x + b.w == a.x || a.y + a.h == b.y || b.y + b.h == a.y
    ensures !Overlaps(a, b)
    ensures !CheckCollision(a, 0.0, b).colliding
  {
  }

  /** `isPointInRect`: closed containment, so a point on the border is inside. */
  predicate PointInRect(p: Point, r: Box) {
    p.x >= r.x && p.x <= r.x + r.w && p.y >= r.y && p.y <= r.y + r.h
  }
}
