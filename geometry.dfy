/**
 * Integer points and rectangles in pixels, as the toolkit reports them. A
 * screen geometry is in desktop coordinates; a pointer position is relative to
 * the window that receives the event.
 */
module Geometry {
  /** A pointer position. */
  datatype Point = Point(x: int, y: int)

  /** A rectangle given by its top-left corner and its size (a screen geometry or a capture area). */
  datatype Rect = Rect(x: int, y: int, width: int, height: int)

  /** `p` lies at or to the right of and at or below `o`, on both axes. */
  predicate Dominates(p: Point, o: Point) {
    p.x >= o.x && p.y >= o.y
  }

  function TopLeft(r: Rect): Point {
    Point(r.x, r.y)
  }

  /** The corner opposite the top-left one. */
  function FarCorner(r: Rect): Point {
    Point(r.x + r.width, r.y + r.height)
  }

  /** `p`, given relative to a window whose top-left corner is `w`'s, is a pixel of that window. */
  predicate InWindow(w: Rect, p: Point) {
    0 <= p.x < w.width && 0 <= p.y < w.height
  }

  /** `inner` has a non-negative size and lies inside `outer`. */
  predicate Contains(outer: Rect, inner: Rect) {
    inner.width >= 0 && inner.height >= 0 &&
    Dominates(TopLeft(inner), TopLeft(outer)) && Dominates(FarCorner(outer), FarCorner(inner))
  }
}
