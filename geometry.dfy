/** Integer screen rectangles and the overlap test the game uses for collisions.
    The rectangle type stands for the graphics library's `Rect`; its overlap test
    is taken with the library's documented convention: two rectangles collide when
    they share at least one pixel, so rectangles that only touch along an edge do
    not collide. That a rectangle without a positive width and height collides
    with nothing is this model's own choice; every rectangle of the game is 40
    by 40. */
module Geometry {

  /** A rectangle with top-left corner (x, y), width w and height h, in pixels. */
  datatype Rect = Rect(x: int, y: int, w: int, h: int)

  /** The pixel (px, py) lies inside r: left/top edges inclusive, right/bottom exclusive. */
  predicate Contains(r: Rect, px: int, py: int) {
    r.x <= px < r.x + r.w && r.y <= py < r.y + r.h
  }

  /** The overlap test: both rectangles have a positive size and their
      x-ranges and y-ranges intersect with a strictly positive extent. */
  predicate CollideRect(a: Rect, b: Rect): (r: bool)
    ensures r ==> Contains(a, Max(a.x, b.x), Max(a.y, b.y)) && Contains(b, Max(a.x, b.x), Max(a.y, b.y))
    ensures a.x + a.w == b.x || b.x + b.w == a.x || a.y + a.h == b.y || b.y + b.h == a.y ==> !r
  {
    && a.w > 0 && a.h > 0 && b.w > 0 && b.h > 0
    && a.x < b.x + b.w && b.x < a.x + a.w
    && a.y < b.y + b.h && b.y < a.y + a.h
  }

  function Max(a: int, b: int): (m: int) {
    if a < b then b else a
  }

  /** The overlap test does not depend on which rectangle asks. */
  lemma CollideRectSymmetric(a: Rect, b: Rect)
    ensures CollideRect(a, b) <==> CollideRect(b, a)
  {
  }

  /** The overlap test agrees with its reference meaning: the rectangles
      collide exactly when some pixel lies in both. */
  lemma CollideRectSharesPixel(a: Rect, b: Rect)
    ensures CollideRect(a, b) <==> exists px, py :: Contains(a, px, py) && Contains(b, px, py)
  {
  }

  /** Conversion of a real coordinate to the integer one a rectangle stores:
      truncation toward zero. */
  function Trunc(v: real): (n: int)
    ensures 0.0 <= v ==> 0 <= n && n as real <= v < n as real + 1.0
    ensures v < 0.0 ==> n <= 0 && n as real - 1.0 < v <= n as real
  {
    if 0.0 <= v then v.Floor else -((-v).Floor)
  }
}
