/** Textures and alphamaps as column-major grids: `g[x][y]` is the pixel at
    column `x`, row `y`, as `Texture2D.SetPixel(x, y, …)` addresses it. */
module Grids {

  /** `g` has `width` columns of `height` cells each. */
  ghost predicate IsGrid<T>(g: seq<seq<T>>, width: nat, height: nat) {
    |g| == width && forall x :: 0 <= x < width ==> |g[x]| == height
  }
}
