/**
 * Points on the drawing surface.  Compose's `Offset` holds two `Float`
 * coordinates; here they are integers, so subtraction is exact.
 */
module Geometry {

  /** A point (or a displacement) in surface-local coordinates. */
  datatype Offset = Offset(x: int, y: int)
  {
    /** `this - other`, coordinate by coordinate (`Offset.minus`). */
    function Minus(other: Offset): Offset
    {
      Offset(x - other.x, y - other.y)
    }
  }
}
