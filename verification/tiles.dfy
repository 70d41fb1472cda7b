/**
 * Tile kinds and their colours: the integer clamp of `World._generate_tile`
 * and the table lookup of `World.get_tile_color`.
 * Tile kinds are plain integers, as in the program: 0 = water, 1 = sand,
 * 2 = grass, 3 = dirt.
 */
module Tiles {
  import opened Arith

  /** Side of one square tile, in pixels. */
  const TILE_SIZE: int := 64

  /** The largest tile kind that `_generate_tile` produces. */
  const MAX_KIND: int := 3

  type Channel = c: int | 0 <= c <= 255

  datatype Rgb = Rgb(r: Channel, g: Channel, b: Channel)

  const WATER_BLUE: Rgb := Rgb(65, 105, 225)
  const SAND_BEIGE: Rgb := Rgb(238, 214, 175)
  const GRASS_GREEN: Rgb := Rgb(34, 139, 34)
  const DIRT_BROWN: Rgb := Rgb(139, 69, 19)
  /** The colour of every grid line. */
  const GRID_LINE: Rgb := Rgb(50, 50, 50)
  /** The sentinel returned for a kind that has no entry in the table. */
  const BLACK: Rgb := Rgb(0, 0, 0)

  /** The colour table, indexed by tile kind. */
  const COLORS: seq<Rgb> := [WATER_BLUE, SAND_BEIGE, GRASS_GREEN, DIRT_BROWN]

  predicate IsKind(k: int) {
    0 <= k <= MAX_KIND
  }

  /**
   * The integer step of `_generate_tile`: `level` stands for the truncated
   * noise value `int(sin(x*0.1)*cos(y*0.1)*2 + 2)`, which is forced into the
   * kinds 0..3. The result is the kind nearest to `level`.
   */
  function Classify(level: int): (kind: int)
    ensures IsKind(kind)
    ensures IsKind(level) ==> kind == level
    ensures level < 0 ==> kind == 0
    ensures level > MAX_KIND ==> kind == MAX_KIND
  {
    Max(0, Min(MAX_KIND, level))
  }

  /** A higher noise level never yields a lower kind, so smooth noise gives smooth regions. */
  lemma ClassifyMonotone(a: int, b: int)
    requires a <= b
    ensures Classify(a) <= Classify(b)
  {
  }

  /** `get_tile_color`: a total lookup, with black for anything outside the table. */
  function TileColor(kind: int): (c: Rgb)
    ensures kind == 0 ==> c == WATER_BLUE
    ensures kind == 1 ==> c == SAND_BEIGE
    ensures kind == 2 ==> c == GRASS_GREEN
    ensures kind == 3 ==> c == DIRT_BROWN
    ensures !IsKind(kind) ==> c == BLACK
  {
    if 0 <= kind < |COLORS| then COLORS[kind] else BLACK
  }

  /** Only a kind outside the table is painted with the sentinel colour. */
  lemma TileColorSentinel(kind: int)
    ensures TileColor(kind) == BLACK <==> !IsKind(kind)
  {
  }

  /** Every kind the generator can produce has a proper colour in the table. */
  lemma ClassifiedKindsHaveColors(level: int)
    ensures TileColor(Classify(level)) in COLORS
    ensures TileColor(Classify(level)) != BLACK
  {
  }
}
