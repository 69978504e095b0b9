/**
 * Axis-aligned bounding-box tests and the line-of-sight probe
 * (components/GameCanvas.tsx, checkCollision, checkRectCollision,
 * hasLineOfSight).
 */
module Collision {
  import opened Types

  function ToRect(b: Box): Rect
  {
    Rect(b.pos.x, b.pos.y, b.size.w, b.size.h)
  }

  /** Overlap of two rectangles: strict inequality on all four tests. */
  predicate CheckRectCollision(r1: Rect, r2: Rect)
  {
    r1.x < r2.x + r2.w && r1.x + r1.w > r2.x && r1.y < r2.y + r2.h && r1.y + r1.h > r2.y
  }

  /** Overlap of two entities' bounding boxes; the same test as CheckRectCollision. */
  function CheckCollision(a: Box, b: Box): (r: bool)
    ensures r == CheckRectCollision(ToRect(a), ToRect(b))
  {
    a.pos.x < b.pos.x + b.size.w &&
    a.pos.x + a.size.w > b.pos.x &&
    a.pos.y < b.pos.y + b.size.h &&
    a.pos.y + a.size.h > b.pos.y
  }

  /** The point (px, py) lies strictly inside r. */
  ghost predicate Inside(px: real, py: real, r: Rect)
  {
    r.x < px < r.x + r.w && r.y < py < r.y + r.h
  }

  /**
   * For rectangles of positive extent the strict test says exactly that the
   * two rectangles share an interior point; so it is symmetric and rectangles
   * that only touch along an edge or at a corner do not collide.
   */
  lemma CollisionIsSharedInterior(r1: Rect, r2: Rect)
    requires r1.w > 0.0 && r1.h > 0.0 && r2.w > 0.0 && r2.h > 0.0
    ensures CheckRectCollision(r1, r2) <==>
            exists px: real, py: real :: Inside(px, py, r1) && Inside(px, py, r2)
    ensures CheckRectCollision(r1, r2) <==> CheckRectCollision(r2, r1)
  {
    if CheckRectCollision(r1, r2) {
      var px := (Max(r1.x, r2.x) + Min(r1.x + r1.w, r2.x + r2.w)) / 2.0;
      var py := (Max(r1.y, r2.y) + Min(r1.y + r1.h, r2.y + r2.h)) / 2.0;
      assert Inside(px, py, r1) && Inside(px, py, r2);
    }
  }

  /** Rectangles whose edges only touch do not collide, in either order. */
  lemma TouchingEdgesDoNotCollide(r1: Rect, r2: Rect)
    requires r1.x + r1.w == r2.x || r2.x + r2.w == r1.x || r1.y + r1.h == r2.y || r2.y + r2.h == r1.y
    ensures !CheckRectCollision(r1, r2) && !CheckRectCollision(r2, r1)
  {
  }

  /** Some obstacle's bounding box overlaps r (the callback of `obstacles.some`). */
  predicate Blocked(r: Rect, obstacles: seq<Obstacle>)
  {
    exists k | 0 <= k < |obstacles| :: CheckRectCollision(r, ToRect(obstacles[k].Bounds()))
  }

  /** The `for (const obs of obstacles) if (...) { hit = true; break; }` scan. */
  method CollidesWithAny(r: Rect, obstacles: seq<Obstacle>) returns (hit: bool)
    ensures hit <==> Blocked(r, obstacles)
    ensures hit <==> exists k | 0 <= k < |obstacles| :: CheckRectCollision(r, ToRect(obstacles[k].Bounds()))
  {
    hit := false;
    var k := 0;
    while k < |obstacles|
      invariant 0 <= k <= |obstacles|
      invariant forall j | 0 <= j < k :: !CheckRectCollision(r, ToRect(obstacles[j].Bounds()))
    {
      if CheckRectCollision(r, ToRect(obstacles[k].Bounds())) {
        hit := true;
        return;
      }
      k := k + 1;
    }
  }

  /** The i-th sample point of the segment from a to b cut into `steps` pieces. */
  function Sample(a: Vec2, b: Vec2, steps: int, i: int): Vec2
    requires steps > 0
  {
    Vec2(a.x + (b.x - a.x) / (steps as real) * (i as real),
         a.y + (b.y - a.y) / (steps as real) * (i as real))
  }

  /** The 4-by-4 probe square centred on a sample point. */
  function Probe(p: Vec2): Rect
  {
    Rect(p.x - 2.0, p.y - 2.0, 4.0, 4.0)
  }

  /** No probe square on the segment from a to b, cut into `steps` pieces, overlaps an obstacle. */
  predicate LineClear(a: Vec2, b: Vec2, steps: int, obstacles: seq<Obstacle>)
  {
    forall i | 1 <= i < steps :: !Blocked(Probe(Sample(a, b, steps, i)), obstacles)
  }

  /**
   * hasLineOfSight with its step count given: the source derives it as
   * ceil(|b - a| / 20). The view is clear iff no interior sample point
   * i = 1 .. steps-1 has its probe square overlapping an obstacle.
   */
  method HasLineOfSight(a: Vec2, b: Vec2, steps: int, obstacles: seq<Obstacle>) returns (clear: bool)
    ensures clear <==> forall i | 1 <= i < steps :: !Blocked(Probe(Sample(a, b, steps, i)), obstacles)
    ensures clear == LineClear(a, b, steps, obstacles)
  {
    var i := 1;
    while i < steps
      invariant 1 <= i
      invariant forall j | 1 <= j < i && j < steps :: !Blocked(Probe(Sample(a, b, steps, j)), obstacles)
    {
      var p := Sample(a, b, steps, i);
      var hit := CollidesWithAny(Probe(p), obstacles);
      if hit {
        return false;
      }
      i := i + 1;
    }
    return true;
  }
}
