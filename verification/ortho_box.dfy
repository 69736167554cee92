/** The orthographic box the projection is built from, and the projection
    matrix the renderer holds and uploads. */
module OrthoBox {
  /** The six extents handed to the orthographic projection. */
  datatype Box = Box(left: int, right: int, bottom: int, top: int, near: int, far: int)

  /** The box of a square surface: the unit cube. */
  const UnitBox := Box(-1, 1, -1, 1, -1, 1)

  /** The projection matrix the renderer holds: all zeros until the first
      resize, afterwards the orthographic projection of a box. */
  datatype Matrix = Zero | Ortho(box: Box)
}
