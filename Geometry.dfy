/** Geometry and display vocabulary shared by the pong game: integer points,
    regions, the colours the game paints with, and the shape interface of the
    layered-shape library (a shape is a pair of functions, as in that library,
    where every shape record starts with a bounds function and a containment
    check). */
module Geometry {

  /** Index of a coordinate axis: 0 is x (columns), 1 is y (rows). */
  type Axis = a: int | 0 <= a < 2

  /** A 2D integer vector, used both for positions and for velocities. */
  datatype Vec2 = Vec2(x: int, y: int) {

    /** The coordinate on `axis`. */
    function Get(axis: Axis): int {
      if axis == 0 then x else y
    }

    /** This vector with the coordinate on `axis` replaced by `v`. */
    function With(axis: Axis, v: int): (r: Vec2)
      ensures r.Get(axis) == v
      ensures forall other: Axis :: other != axis ==> r.Get(other) == Get(other)
    {
      if axis == 0 then this.(x := v) else this.(y := v)
    }

    /** Component-wise sum. */
    function Add(o: Vec2): Vec2 {
      Vec2(x + o.x, y + o.y)
    }
  }

  /** An axis-aligned box given by its top-left and bottom-right corners, both
      inclusive. */
  datatype Region = Region(topLeft: Vec2, botRight: Vec2)

  /** The colours the game uses. */
  datatype Color = Black | White | Red | Gold | Violet

  /** A shape of the shape library: `bounds(center)` is its bounding box when it
      is drawn at `center`, and `contains(center, pixel)` says whether
      `pixel` belongs to it then. */
  datatype Shape = Shape(bounds: Vec2 -> Region, contains: (Vec2, Vec2) -> bool)

  /** Dimensions of the display, in pixels. */
  const ScreenWidth: int := 128
  const ScreenHeight: int := 160

  /** The centre of the playing field, where the ball is put back after a goal. */
  const Center: Vec2 := Vec2(ScreenWidth / 2, ScreenHeight / 2)
}
