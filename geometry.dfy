/** Rectangles in pixel space, the intersection test and grid rounding. */
module Geometry {
  import opened Constants

  /** An axis-aligned rectangle `{x, y, width, height}`. */
  datatype Rect = Rect(x: real, y: real, width: real, height: real)

  /** The page-global `checkCollision(a, b)` rectangle test. Its definition is not
      part of this model, so every operation receives it as a value and no property
      here depends on how it treats touching edges. */
  type Overlap = (Rect, Rect) -> bool

  /** `gridToPixel(col, row)`, not part of this model: assumed to scale a cell
      coordinate by the cell size. */
  function GridToPixel(col: int, row: int): (real, real) {
    (col as real * CellSize, row as real * CellSize)
  }

  /** JavaScript's `Math.round`, which rounds halves upwards: floor(v + 1/2). */
  function Round(v: real): (n: int)
    ensures n as real - 0.5 <= v < n as real + 0.5
  {
    (v + 0.5).Floor
  }

  function Abs(v: real): real {
    if v < 0.0 then -v else v
  }

  /** A pixel coordinate that lies on a grid line. */
  predicate OnGrid(v: real) {
    (v / CellSize).Floor as real * CellSize == v
  }

  /** The grid line nearest to `v`: `Math.round(v / CELL_SIZE) * CELL_SIZE`. */
  function NearestGridLine(v: real): (g: real)
    ensures OnGrid(g)
    ensures Abs(g - v) <= CellSize / 2.0
  {
    var n := Round(v / CellSize);
    assert (n as real * CellSize) / CellSize == n as real;
    n as real * CellSize
  }
}
