/** Screen and world constants of the game, and the axis-aligned rectangle
    tests everything else is built on. */
module Geometry {

  /** Width and height of the logical canvas, in world units. */
  const WIDTH: real := 900.0
  const HEIGHT: real := 600.0

  /** Side of one tile of a level's grid. */
  const TILE_SIZE: nat := 60

  /** How far below its cell's top edge the collider of a grass tile starts. */
  const GRASS_TOP_OFFSET: nat := 15

  /** An axis-aligned rectangle: top-left corner and size. */
  datatype Rect = Rect(x: real, y: real, width: real, height: real)

  /** The overlap test: strict on every side, so rectangles that only share
      an edge do not collide. */
  predicate IsColliding(a: Rect, b: Rect)
  {
    a.x < b.x + b.width &&
    a.x + a.width > b.x &&
    a.y < b.y + b.height &&
    a.y + a.height > b.y
  }

  /** Closed containment of a point, edges included. */
  predicate IsPointInRect(px: real, py: real, r: Rect)
  {
    px >= r.x && px <= r.x + r.width && py >= r.y && py <= r.y + r.height
  }

  /** A point of the open interior of `r`. */
  predicate StrictlyInside(px: real, py: real, r: Rect)
  {
    r.x < px < r.x + r.width && r.y < py < r.y + r.height
  }

  predicate HasArea(r: Rect)
  {
    r.width > 0.0 && r.height > 0.0
  }

  function Max(a: real, b: real): real { if a >= b then a else b }
  function Min(a: real, b: real): real { if a <= b then a else b }

  lemma CollidingSymmetric(a: Rect, b: Rect)
    ensures IsColliding(a, b) <==> IsColliding(b, a)
  {
  }

  /** Rectangles that meet only along an edge do not collide. */
  lemma TouchingEdgesDoNotCollide(a: Rect, b: Rect)
    requires a.x + a.width == b.x || b.x + b.width == a.x ||
             a.y + a.height == b.y || b.y + b.height == a.y
    ensures !IsColliding(a, b) && !IsColliding(b, a)
  {
  }

  /** For rectangles with area, colliding means exactly that the two open
      interiors share a point. */
  lemma CollidingIffSharedInterior(a: Rect, b: Rect)
    requires HasArea(a) && HasArea(b)
    ensures IsColliding(a, b) <==>
            exists px, py :: StrictlyInside(px, py, a) && StrictlyInside(px, py, b)
  {
    if IsColliding(a, b) {
      var left := Max(a.x, b.x);
      var right := Min(a.x + a.width, b.x + b.width);
      var top := Max(a.y, b.y);
      var bottom := Min(a.y + a.height, b.y + b.height);
      var px, py := (left + right) / 2.0, (top + bottom) / 2.0;
      assert StrictlyInside(px, py, a) && StrictlyInside(px, py, b);
    }
  }

  /** A point collides with a rectangle (as a rectangle of size zero) only
      when it lies strictly inside it, and then it is also inside in the
      closed sense of IsPointInRect; a point on an edge is only the latter. */
  lemma PointCollisionIsStrict(px: real, py: real, r: Rect)
    ensures IsColliding(Rect(px, py, 0.0, 0.0), r) <==> StrictlyInside(px, py, r)
    ensures StrictlyInside(px, py, r) ==> IsPointInRect(px, py, r)
    ensures r.width >= 0.0 && r.height >= 0.0 ==>
            IsPointInRect(r.x, r.y, r) && !StrictlyInside(r.x, r.y, r)
  {
  }
}
