/**
 Geometric values shared by draggables and droppables (the library's `./layout`
 module). Coordinates are JavaScript numbers, modelled as `real`: comparing,
 copying and negating them is exact, while addition is modelled as exact real
 addition rather than rounded double-precision addition.
 */
module Geometry {

  /** Axis-aligned bounding box of a participant, as last measured. */
  datatype Layout = Layout(x: real, y: real, width: real, height: real)

  /** An additive 2D offset. */
  datatype Transform = Transform(x: real, y: real)

  /** The identity offset (`noopTransform()`). */
  function Zero(): (r: Transform)
  {
    Transform(0.0, 0.0)
  }

  /** Componentwise sum of two offsets. */
  function Add(a: Transform, b: Transform): (r: Transform)
  {
    Transform(a.x + b.x, a.y + b.y)
  }

  /** Both axes negated. */
  function Neg(t: Transform): (r: Transform)
  {
    Transform(-t.x, -t.y)
  }
}
