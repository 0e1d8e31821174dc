/**
 * The integer rectangles and floating-point vectors the game takes from
 * pygame: `Rect` with its edge accessors and setters and its overlap test,
 * `Vector2` as a pair of reals, and the truncation that `int()` applies to a
 * float.
 */
module Geometry {

  /** An axis-aligned box: top-left corner (x, y), width w, height h. */
  datatype Rect = Rect(x: int, y: int, w: int, h: int) {
    function Left(): int { x }
    function Right(): int { x + w }
    function Top(): int { y }
    function Bottom(): int { y + h }
    function CenterX(): int { x + w / 2 }
    function CenterY(): int { y + h / 2 }

    /** Setting an edge translates the box; its size is kept. */
    function WithLeft(v: int): (r: Rect)
      ensures r.Left() == v && r.y == y && r.w == w && r.h == h
    { Rect(v, y, w, h) }

    function WithRight(v: int): (r: Rect)
      ensures r.Right() == v && r.y == y && r.w == w && r.h == h
    { Rect(v - w, y, w, h) }

    function WithTop(v: int): (r: Rect)
      ensures r.Top() == v && r.x == x && r.w == w && r.h == h
    { Rect(x, v, w, h) }

    function WithBottom(v: int): (r: Rect)
      ensures r.Bottom() == v && r.x == x && r.w == w && r.h == h
    { Rect(x, v - h, w, h) }

    function MoveX(dx: int): Rect
    { Rect(x + dx, y, w, h) }

    function MoveY(dy: int): Rect
    { Rect(x, y + dy, w, h) }
  }

  /**
   * pygame's `colliderect`: boxes of non-zero size collide when they overlap
   * on both axes with positive extent; boxes that only touch along an edge
   * do not collide.
   */
  predicate Collide(a: Rect, b: Rect) {
    a.w != 0 && a.h != 0 && b.w != 0 && b.h != 0 &&
    a.Left() < b.Right() && b.Left() < a.Right() &&
    a.Top() < b.Bottom() && b.Top() < a.Bottom()
  }

  /** `pygame.Vector2`, in pixels per second. */
  datatype Vec = Vec(x: real, y: real)

  /** Python's `int()` on a float: truncation toward zero. */
  function Trunc(r: real): (n: int)
    ensures 0.0 <= r ==> 0 <= n && n as real <= r < n as real + 1.0
    ensures r < 0.0 ==> n <= 0 && n as real - 1.0 < r <= n as real
  {
    if 0.0 <= r then r.Floor else -((-r).Floor)
  }

  /** The whole-pixel displacement `int(v * dt)` of a body moving at `v` for `dt` seconds. */
  function Displacement(v: real, dt: real): int {
    Trunc(v * dt)
  }

  lemma CollideSymmetric(a: Rect, b: Rect)
    ensures Collide(a, b) <==> Collide(b, a)
  {}

  /** Two boxes that share only an edge do not collide. */
  lemma TouchingDoesNotCollide(a: Rect, b: Rect)
    requires a.Right() == b.Left() || b.Right() == a.Left() ||
             a.Bottom() == b.Top() || b.Bottom() == a.Top()
    ensures !Collide(a, b)
  {}
}
