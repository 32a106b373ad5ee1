/**
 * Shared vocabulary: optional values, pygame's integer rectangles and the
 * two collision tests the game uses on them, Python's float-to-int
 * conversion, and squared distances between points.
 */
module Geometry {

  datatype Option<T> = None | Some(value: T)

  /** Screen size (src/config.py). */
  const SCREEN_WIDTH: int := 1280
  const SCREEN_HEIGHT: int := 720

  /** A pygame.Rect: integer position and size. */
  datatype Rect = Rect(x: int, y: int, w: int, h: int)
  {
    function Right(): int { x + w }
    function Bottom(): int { y + h }
    predicate Positive() { w > 0 && h > 0 }
  }

  function Min(a: int, b: int): int { if a <= b then a else b }
  function Max(a: int, b: int): int { if a <= b then b else a }

  /**
   * pygame's Rect.colliderect: a rectangle with a zero side collides with
   * nothing; otherwise the (normalised) interiors must intersect, so
   * rectangles that only touch along an edge do not collide.
   */
  predicate Overlaps(a: Rect, b: Rect)
  {
    a.w != 0 && a.h != 0 && b.w != 0 && b.h != 0 &&
    Min(a.x, a.Right()) < Max(b.x, b.Right()) &&
    Min(a.y, a.Bottom()) < Max(b.y, b.Bottom()) &&
    Max(a.x, a.Right()) > Min(b.x, b.Right()) &&
    Max(a.y, a.Bottom()) > Min(b.y, b.Bottom())
  }

  /** For positive sizes colliderect is the strict interval test on both axes. */
  lemma OverlapsPositive(a: Rect, b: Rect)
    requires a.Positive() && b.Positive()
    ensures Overlaps(a, b) <==>
      (a.x < b.x + b.w && b.x < a.x + a.w && a.y < b.y + b.h && b.y < a.y + a.h)
  {
  }

  /** pygame's Rect.collidepoint: the left and top edges are inside, the right and bottom ones are not. */
  predicate ContainsPoint(r: Rect, px: int, py: int)
  {
    r.x <= px < r.x + r.w && r.y <= py < r.y + r.h
  }

  /** Python's int() on a float: truncation toward zero. */
  function Trunc(v: real): (n: int)
    ensures 0.0 <= v ==> n as real <= v < n as real + 1.0
    ensures v < 0.0 ==> n as real - 1.0 < v <= n as real
  {
    if v >= 0.0 then v.Floor else -((-v).Floor)
  }

  /** Square of the Euclidean distance; the source compares math.sqrt of it against a radius. */
  function DistSq(x1: real, y1: real, x2: real, y2: real): real
  {
    (x1 - x2) * (x1 - x2) + (y1 - y2) * (y1 - y2)
  }

  function MinR(a: real, b: real): real { if a <= b then a else b }
  function MaxR(a: real, b: real): real { if a <= b then b else a }
}
