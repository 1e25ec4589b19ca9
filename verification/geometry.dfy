/** Plane geometry used by the node item: points and axis-aligned rectangles
    over exact reals, with the few rectangle accessors the layout code reads
    (the same meaning as a QRectF: `right = left + width`). */
module Geometry {

  datatype Point = Point(x: real, y: real)

  datatype Rect = Rect(left: real, top: real, width: real, height: real) {

    function Right(): real { left + width }

    function Bottom(): real { top + height }

    function Center(): Point { Point(left + width / 2.0, top + height / 2.0) }

    function TopRight(): Point { Point(Right(), top) }

    function BottomLeft(): Point { Point(left, Bottom()) }

    function BottomRight(): Point { Point(Right(), Bottom()) }
  }

  /** The same rectangle moved by (dx, dy). */
  function Translate(r: Rect, dx: real, dy: real): (t: Rect)
    ensures t.width == r.width && t.height == r.height
    ensures t.left - r.left == dx && t.Right() - r.Right() == dx
    ensures t.top - r.top == dy && t.Bottom() - r.Bottom() == dy
  {
    Rect(r.left + dx, r.top + dy, r.width, r.height)
  }

  /** `inner` is a proper (non-inverted) rectangle lying inside `outer`;
      edges may touch. */
  predicate Within(inner: Rect, outer: Rect) {
    && 0.0 <= inner.width
    && 0.0 <= inner.height
    && outer.left <= inner.left
    && inner.Right() <= outer.Right()
    && outer.top <= inner.top
    && inner.Bottom() <= outer.Bottom()
  }
}
