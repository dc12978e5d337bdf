/** Shared geometric records and the canvas size (src/engine/types.ts). */
module Types {
  datatype Vec2 = Vec2(x: real, y: real)

  /** An axis-aligned rectangle given by its top-left corner and its size. */
  datatype Rect = Rect(x: real, y: real, w: real, h: real)

  datatype Circle = Circle(x: real, y: real, r: real)

  const CANVAS_W: real := 800.0
  const CANVAS_H: real := 600.0
}
