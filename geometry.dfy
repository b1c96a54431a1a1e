/** Window-space rectangles as the host editor defines them: an origin (x, y) at
    the top-left corner, y growing downward, and a width and height that may be
    negative. Coordinates are real numbers; floating-point rounding is not modelled. */
module Geometry {

  datatype Option<T> = None | Some(value: T)

  datatype Rect = Rect(x: real, y: real, width: real, height: real)

  /** The rectangle every slot of a freshly allocated rectangle array holds. */
  const ZERO_RECT := Rect(0.0, 0.0, 0.0, 0.0)

  /** Right edge. */
  function XMax(r: Rect): real { r.x + r.width }

  /** Bottom edge. */
  function YMax(r: Rect): real { r.y + r.height }

  /** The rectangle spanning the four given edges; assigning the far edges of a
      rectangle moves its width and height and keeps its origin. */
  function FromEdges(left: real, top: real, right: real, bottom: real): (r: Rect)
    ensures r.x == left && r.y == top && XMax(r) == right && YMax(r) == bottom
  {
    Rect(left, top, right - left, bottom - top)
  }

  /** Point membership as the host defines it: left and top edges included,
      right and bottom edges excluded. */
  predicate Contains(r: Rect, px: real, py: real) {
    r.x <= px < XMax(r) && r.y <= py < YMax(r)
  }

  /** `inner` lies within the closed bounds of `outer`: its four edges lie
      between the matching edges of `outer`. This is containment in the strict
      sense only when `inner`'s width and height are non-negative; a
      rectangle with a negative extent can meet the four inequalities with its
      origin outside `outer`. */
  predicate Within(inner: Rect, outer: Rect) {
    outer.x <= inner.x && XMax(inner) <= XMax(outer) &&
    outer.y <= inner.y && YMax(inner) <= YMax(outer)
  }

  function Max(a: real, b: real): (m: real)
    ensures m >= a && m >= b && (m == a || m == b)
  {
    if a >= b then a else b
  }

  function Min(a: real, b: real): (m: real)
    ensures m <= a && m <= b && (m == a || m == b)
  {
    if a <= b then a else b
  }

  /** Scaling distributes over a sum. */
  lemma Distributes(a: real, b: real, k: real)
    ensures (a + b) * k == a * k + b * k
  {
  }
}
