/** Overlap tests between circles, rectangles and points (src/engine/Collision.ts). */
module Collision {
  import opened Types
  import opened Maths

  /** Circles overlap when their centres are closer than the sum of the radii (strictly). Two
      circles whose radii sum to zero never overlap, and two circles on the same centre overlap
      exactly when their radii do not sum to zero. */
  predicate CircleOverlap(a: Circle, b: Circle): (o: bool)
    ensures o ==> a.r + b.r != 0.0
    ensures a.x == b.x && a.y == b.y ==> (o <==> a.r + b.r != 0.0)
  {
    var dx := a.x - b.x;
    var dy := a.y - b.y;
    var radii := a.r + b.r;
    SquaresNonNegative(dx, dy);
    if radii != 0.0 then
      SquarePositive(radii);
      assert Portion(radii, radii) == radii * radii;
      dx * dx + dy * dy < radii * radii
    else
      dx * dx + dy * dy < radii * radii
  }

  function Max(p: real, q: real): real {
    if p < q then q else p
  }

  function Min(p: real, q: real): real {
    if p < q then p else q
  }

  /** Rectangles overlap when their open interiors intersect on both axes: for rectangles of
      positive size, on each axis the common part of the two spans, from the later start to the
      earlier end, is non-empty. Two overlapping rectangles have a positive size between them on
      each axis. */
  predicate RectOverlap(a: Rect, b: Rect): (o: bool)
    ensures a.w > 0.0 && a.h > 0.0 && b.w > 0.0 && b.h > 0.0 ==>
      (o <==> Max(a.x, b.x) < Min(a.x + a.w, b.x + b.w) && Max(a.y, b.y) < Min(a.y + a.h, b.y + b.h))
    ensures o ==> a.w + b.w > 0.0 && a.h + b.h > 0.0
  {
    a.x < b.x + b.w && a.x + a.w > b.x && a.y < b.y + b.h && a.y + a.h > b.y
  }

  /** A point lies in a rectangle including its four edges; only a rectangle of non-negative
      size holds any point. */
  predicate PointInRect(px: real, py: real, r: Rect): (o: bool)
    ensures o ==> r.w >= 0.0 && r.h >= 0.0
  {
    px >= r.x && px <= r.x + r.w && py >= r.y && py <= r.y + r.h
  }

  lemma RectOverlapSymmetric(a: Rect, b: Rect)
    ensures RectOverlap(a, b) <==> RectOverlap(b, a)
  {
  }

  /** A rectangle with positive width and height overlaps itself. */
  lemma RectOverlapsItself(a: Rect)
    requires a.w > 0.0 && a.h > 0.0
    ensures RectOverlap(a, a)
  {
  }

  /** Two rectangles that only touch along a vertical edge do not overlap. */
  lemma SharedVerticalEdgeNoOverlap(a: Rect, b: Rect)
    requires b.x == a.x + a.w
    ensures !RectOverlap(a, b) && !RectOverlap(b, a)
  {
  }

  /** Two rectangles that only touch along a horizontal edge do not overlap. */
  lemma SharedHorizontalEdgeNoOverlap(a: Rect, b: Rect)
    requires b.y == a.y + a.h
    ensures !RectOverlap(a, b) && !RectOverlap(b, a)
  {
  }

  /** Separation on either axis rules out an overlap; overlap is exactly "not separated". */
  lemma RectOverlapIffNotSeparated(a: Rect, b: Rect)
    ensures RectOverlap(a, b) <==>
      !(a.x + a.w <= b.x || b.x + b.w <= a.x || a.y + a.h <= b.y || b.y + b.h <= a.y)
  {
  }

  lemma CircleOverlapSymmetric(a: Circle, b: Circle)
    ensures CircleOverlap(a, b) <==> CircleOverlap(b, a)
  {
  }

  /** Circles whose centres are exactly `a.r + b.r` apart (tangent) do not overlap. */
  lemma TangentCirclesNoOverlap(a: Circle, b: Circle)
    requires (a.x - b.x) * (a.x - b.x) + (a.y - b.y) * (a.y - b.y) == (a.r + b.r) * (a.r + b.r)
    ensures !CircleOverlap(a, b)
  {
  }

  /** Two zero-radius circles never overlap, even at the same point. */
  lemma ZeroRadiusCirclesNoOverlap(a: Circle, b: Circle)
    requires a.r == 0.0 && b.r == 0.0
    ensures !CircleOverlap(a, b)
  {
    assert (a.x - b.x) * (a.x - b.x) >= 0.0;
    assert (a.y - b.y) * (a.y - b.y) >= 0.0;
  }

  /** All four corners of a rectangle with non-negative size are inside it. */
  lemma PointInRectCorners(r: Rect)
    requires r.w >= 0.0 && r.h >= 0.0
    ensures PointInRect(r.x, r.y, r) && PointInRect(r.x + r.w, r.y, r)
    ensures PointInRect(r.x, r.y + r.h, r) && PointInRect(r.x + r.w, r.y + r.h, r)
  {
  }
}
