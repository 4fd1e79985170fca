/**
 * The two OpenCV value types the controller reads: a detection `Rect`
 * (top-left corner, width and height, all integers) and a `Point`.
 * OpenCV's `Point` holds doubles, but every point the controller looks at
 * is a corner of an integer rectangle or the default point (0,0), so its
 * coordinates are modelled as integers without loss.
 */
module Geometry {

  datatype Point = Point(x: int, y: int)

  /** The point a default-constructed `Point()` holds. */
  const Origin: Point := Point(0, 0)

  datatype Rect = Rect(x: int, y: int, width: int, height: int) {

    /** Top-left corner, as `Rect.tl()` returns it. */
    function Tl(): Point {
      Point(x, y)
    }

    /** Bottom-right corner, as `Rect.br()` returns it. */
    function Br(): Point {
      Point(x + width, y + height)
    }
  }
}
