/**
 * The world grid built by `World.__init__`: `height` rows of `width` tile
 * kinds, each produced by `_generate_tile`. The object's fields are never
 * reassigned after construction, so the world is a value.
 */
module TileWorld {
  import opened Tiles

  /**
   * `camera_x` and `camera_y` are set to 0 by the constructor and never read:
   * `draw` takes the camera as arguments.
   */
  datatype World = World(width: int, height: int, cameraX: int, cameraY: int, tiles: seq<seq<int>>)

  /** The number of elements of Python's `range(n)`. */
  function RangeLength(n: int): (len: nat)
    ensures n >= 0 ==> len == n
    ensures n <= 0 ==> len == 0
  {
    if n < 0 then 0 else n
  }

  /** The grid has the constructor's shape and holds kinds only. */
  predicate WellFormed(w: World) {
    && |w.tiles| == RangeLength(w.height)
    && (forall y :: 0 <= y < |w.tiles| ==> |w.tiles[y]| == RangeLength(w.width))
    && (forall y, x :: 0 <= y < |w.tiles| && 0 <= x < |w.tiles[y]| ==> IsKind(w.tiles[y][x]))
  }

  /**
   * `_generate_tile(x, y)`. The floating-point noise is abstracted by `noise`,
   * which gives the truncated level `int(sin(x*0.1)*cos(y*0.1)*2 + 2)`.
   */
  function GenerateTile(noise: (int, int) -> int, x: int, y: int): (kind: int)
    ensures IsKind(kind)
    ensures IsKind(noise(x, y)) ==> kind == noise(x, y)
  {
    Classify(noise(x, y))
  }

  /**
   * `World(width, height)`: the nested comprehension evaluates the generator
   * once per cell, row by row. A non-positive dimension gives an empty range.
   */
  function NewWorld(width: int, height: int, noise: (int, int) -> int): (w: World)
    ensures WellFormed(w)
    ensures w.width == width && w.height == height
    ensures w.cameraX == 0 && w.cameraY == 0
    ensures |w.tiles| == RangeLength(height)
    ensures forall y, x :: 0 <= y < RangeLength(height) && 0 <= x < RangeLength(width) ==>
              w.tiles[y][x] == GenerateTile(noise, x, y)
  {
    World(width, height, 0, 0,
          seq(RangeLength(height), y => seq(RangeLength(width), x => GenerateTile(noise, x, y))))
  }
}
