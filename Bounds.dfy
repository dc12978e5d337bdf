/**
 * Bounding rectangles of the game's entities (src/games/galactic-assault/bounds.ts): every
 * entity is positioned by its centre, and its rectangle is built around that centre.
 */
module Bounds {
  import opened Types
  import opened Collision
  import opened Bullets
  import opened PowerUps
  import opened Formation

  /** The rectangle of size `w` by `h` centred on `(x, y)`. */
  function CenteredBounds(x: real, y: real, w: real, h: real): (r: Rect)
    ensures r.w == w && r.h == h
    ensures r.x + r.w / 2.0 == x && r.y + r.h / 2.0 == y
  {
    Rect(x - w / 2.0, y - h / 2.0, w, h)
  }

  /** A rectangle is the centred rectangle of its own centre and size, and of nothing else. */
  lemma CenteredBoundsUnique(r: Rect, x: real, y: real, w: real, h: real)
    ensures r == CenteredBounds(x, y, w, h) <==> r.w == w && r.h == h && r.x + w / 2.0 == x && r.y + h / 2.0 == y
  {
  }

  /** The centre of a rectangle of non-negative size lies inside it. */
  lemma CentreInside(x: real, y: real, w: real, h: real)
    requires w >= 0.0 && h >= 0.0
    ensures PointInRect(x, y, CenteredBounds(x, y, w, h))
  {
  }

  /** An alien's rectangle: its size, centred on its position. */
  function AlienBounds(a: Alien): (r: Rect)
    ensures r.w == a.width && r.h == a.height
    ensures r.x + r.w / 2.0 == a.x && r.y + r.h / 2.0 == a.y
  {
    CenteredBounds(a.x, a.y, a.width, a.height)
  }

  /** A bullet's rectangle: its size, centred on its position. Bullets and aliens are both
      positioned by their centre, so both boxes are `CenteredBounds` of the entity's own size. */
  function BulletBounds(b: Bullet): (r: Rect)
    ensures r.w == b.width && r.h == b.height
    ensures r.x + r.w / 2.0 == b.x && r.y + r.h / 2.0 == b.y
  {
    CenteredBounds(b.x, b.y, b.width, b.height)
  }

  /** A power-up's rectangle: a square of side twice its size, centred on its position. */
  function PowerUpBounds(p: PowerUpItem): (r: Rect)
    ensures r.w == r.h == 2.0 * p.size
    ensures r.x + r.w / 2.0 == p.x && r.y + r.h / 2.0 == p.y
  {
    Rect(p.x - p.size, p.y - p.size, p.size * 2.0, p.size * 2.0)
  }

  /** The power-up square is the centred rectangle of twice the size. */
  lemma PowerUpBoundsCentered(p: PowerUpItem)
    ensures PowerUpBounds(p) == CenteredBounds(p.x, p.y, 2.0 * p.size, 2.0 * p.size)
  {
  }
}
