/**
 * Draw-command emission in `World.draw`. Each `pygame.draw.rect` call becomes
 * a `DrawRect` command appended to the result; for every visible tile, in
 * row-major order, the fill comes first and the 1-pixel grid-line outline second.
 */
module Drawing {
  import opened Arith
  import opened Tiles
  import opened TileWorld
  import opened Culling

  /** A pygame rectangle `(left, top, width, height)` in screen pixels. */
  datatype Rect = Rect(left: int, top: int, width: int, height: int)

  /** `pygame.draw.rect(screen, color, rect, lineWidth)`: line width 0 fills the rectangle. */
  datatype Command = DrawRect(color: Rgb, rect: Rect, lineWidth: int)

  /** The screen rectangle of tile `(x, y)`: world pixels shifted by the camera. */
  function TileRect(x: int, y: int, camX: int, camY: int): (r: Rect)
    ensures r.left + camX == x * TILE_SIZE && r.top + camY == y * TILE_SIZE
    ensures r.width == TILE_SIZE && r.height == TILE_SIZE
  {
    Rect(x * TILE_SIZE - camX, y * TILE_SIZE - camY, TILE_SIZE, TILE_SIZE)
  }

  /**
   * The rectangle pygame paints for tile `(x, y)` meets the window `[0, screenW) x [0, screenH)`
   * exactly when the tile overlaps the screen in world pixels: the screen
   * coordinates of the emitted rectangles agree with `Overlaps`.
   */
  lemma TileRectOnScreen(x: int, y: int, camX: int, camY: int, screenW: int, screenH: int)
    ensures var r := TileRect(x, y, camX, camY);
            (r.left < screenW && 0 < r.left + r.width) <==> Overlaps(x, camX, screenW)
    ensures var r := TileRect(x, y, camX, camY);
            (r.top < screenH && 0 < r.top + r.height) <==> Overlaps(y, camY, screenH)
  {
  }

  /**
   * The kind of tile `(x, y)`, which `draw` reads as `tiles[y][x]`. The culled
   * loops read only inside the grid; a position outside it holds no tile and
   * is given -1, which is not a kind.
   */
  function KindAt(w: World, x: int, y: int): int {
    if 0 <= y < |w.tiles| && 0 <= x < |w.tiles[y]| then w.tiles[y][x] else -1
  }

  /** The filled background of tile `(x, y)`, in the colour of its kind. */
  function Fill(w: World, x: int, y: int, camX: int, camY: int): Command {
    DrawRect(TileColor(KindAt(w, x, y)), TileRect(x, y, camX, camY), 0)
  }

  /** The grid-line outline of tile `(x, y)`. */
  function Outline(x: int, y: int, camX: int, camY: int): Command {
    DrawRect(GRID_LINE, TileRect(x, y, camX, camY), 1)
  }

  /** The commands for tiles `x0 .. x1-1` of row `y`, left to right. */
  function RowCommands(w: World, y: int, x0: int, x1: int, camX: int, camY: int): seq<Command>
    decreases x1 - x0
  {
    if x1 <= x0 then []
    else RowCommands(w, y, x0, x1 - 1, camX, camY) + [Fill(w, x1 - 1, y, camX, camY), Outline(x1 - 1, y, camX, camY)]
  }

  /** The commands for rows `y0 .. y1-1`, each over the columns `x0 .. x1-1`, top to bottom. */
  function GridCommands(w: World, y0: int, y1: int, x0: int, x1: int, camX: int, camY: int): seq<Command>
    decreases y1 - y0
  {
    if y1 <= y0 then []
    else GridCommands(w, y0, y1 - 1, x0, x1, camX, camY) + RowCommands(w, y1 - 1, x0, x1, camX, camY)
  }

  /** What `draw` emits for a camera offset and a screen size: the commands of the visible tiles. */
  function Render(w: World, camX: int, camY: int, screenW: int, screenH: int): seq<Command> {
    var v := Visible(w, camX, camY, screenW, screenH);
    GridCommands(w, v.rows.lo, v.rows.hi, v.cols.lo, v.cols.hi, camX, camY)
  }

  /**
   * `World.draw`: the nested loops over the visible rows and columns. Every
   * `tiles[y][x]` it reads is inside the grid, and what it emits is `Render`.
   */
  method Draw(w: World, camX: int, camY: int, screenW: int, screenH: int) returns (cmds: seq<Command>)
    requires WellFormed(w)
    ensures cmds == Render(w, camX, camY, screenW, screenH)
  {
    var startX := Arith.Max(0, camX / TILE_SIZE);
    var startY := Arith.Max(0, camY / TILE_SIZE);
    var endX := Arith.Min(w.width, (camX + screenW) / TILE_SIZE + 1);
    var endY := Arith.Min(w.height, (camY + screenH) / TILE_SIZE + 1);

    cmds := [];
    var y := startY;
    while y < endY
      invariant startY <= y && (y <= endY || y == startY)
      invariant cmds == GridCommands(w, startY, y, startX, endX, camX, camY)
    {
      var x := startX;
      while x < endX
        invariant startX <= x && (x <= endX || x == startX)
        invariant cmds == GridCommands(w, startY, y, startX, endX, camX, camY)
                          + RowCommands(w, y, startX, x, camX, camY)
      {
        var tileX := x * TILE_SIZE - camX;
        var tileY := y * TILE_SIZE - camY;
        var tileType := w.tiles[y][x];
        cmds := cmds + [DrawRect(TileColor(tileType), Rect(tileX, tileY, TILE_SIZE, TILE_SIZE), 0)];
        cmds := cmds + [DrawRect(GRID_LINE, Rect(tileX, tileY, TILE_SIZE, TILE_SIZE), 1)];
        DrawTileStep(w, GridCommands(w, startY, y, startX, endX, camX, camY), y, startX, x, camX, camY);
        x := x + 1;
      }
      DrawRowStep(w, startY, y, startX, x, endX, camX, camY);
      y := y + 1;
    }
  }

  /** One more tile on the right of a row appends its fill and its outline. */
  lemma RowCommandsStep(w: World, y: int, x0: int, x: int, camX: int, camY: int)
    requires x0 <= x
    ensures RowCommands(w, y, x0, x + 1, camX, camY)
            == RowCommands(w, y, x0, x, camX, camY) + [Fill(w, x, y, camX, camY), Outline(x, y, camX, camY)]
  {
  }

  lemma AppendPair<T>(a: seq<T>, b: seq<T>, p: T, q: T)
    ensures a + b + [p] + [q] == a + (b + [p, q])
  {
  }

  /** One pass of the inner loop of `Draw`: the two commands it appends extend the row by tile `x`. */
  lemma DrawTileStep(w: World, prefix: seq<Command>, y: int, x0: int, x: int, camX: int, camY: int)
    requires WellFormed(w)
    requires 0 <= y < w.height
    requires 0 <= x0 <= x < w.width
    ensures prefix + RowCommands(w, y, x0, x, camX, camY)
            + [DrawRect(TileColor(w.tiles[y][x]), Rect(x * TILE_SIZE - camX, y * TILE_SIZE - camY, TILE_SIZE, TILE_SIZE), 0)]
            + [DrawRect(GRID_LINE, Rect(x * TILE_SIZE - camX, y * TILE_SIZE - camY, TILE_SIZE, TILE_SIZE), 1)]
            == prefix + RowCommands(w, y, x0, x + 1, camX, camY)
  {
    RowCommandsStep(w, y, x0, x, camX, camY);
    AppendPair(prefix, RowCommands(w, y, x0, x, camX, camY), Fill(w, x, y, camX, camY), Outline(x, y, camX, camY));
  }

  /** One pass of the outer loop of `Draw`: once the inner loop is done, row `y` is complete. */
  lemma DrawRowStep(w: World, y0: int, y: int, x0: int, x: int, x1: int, camX: int, camY: int)
    requires y0 <= y
    requires x == x1 || (x == x0 && x1 <= x0)
    ensures GridCommands(w, y0, y, x0, x1, camX, camY) + RowCommands(w, y, x0, x, camX, camY)
            == GridCommands(w, y0, y + 1, x0, x1, camX, camY)
  {
    assert RowCommands(w, y, x0, x, camX, camY) == RowCommands(w, y, x0, x1, camX, camY);
    GridCommandsStep(w, y0, y + 1, x0, x1, camX, camY);
  }

  /** A row of `n` tiles yields `2*n` commands: fill then outline for each tile, left to right. */
  lemma {:induction false} RowCommandsAt(w: World, y: int, x0: int, x1: int, camX: int, camY: int, j: int)
    requires 0 <= j < x1 - x0
    ensures |RowCommands(w, y, x0, x1, camX, camY)| == 2 * (x1 - x0)
    ensures RowCommands(w, y, x0, x1, camX, camY)[2 * j] == Fill(w, x0 + j, y, camX, camY)
    ensures RowCommands(w, y, x0, x1, camX, camY)[2 * j + 1] == Outline(x0 + j, y, camX, camY)
    decreases x1 - x0
  {
    if j < x1 - 1 - x0 {
      RowCommandsAt(w, y, x0, x1 - 1, camX, camY, j);
    } else if x0 < x1 - 1 {
      RowCommandsAt(w, y, x0, x1 - 1, camX, camY, 0);
    }
  }

  lemma {:induction false} RowCommandsLength(w: World, y: int, x0: int, x1: int, camX: int, camY: int)
    ensures |RowCommands(w, y, x0, x1, camX, camY)| == 2 * Span(x0, x1).Length()
    decreases x1 - x0
  {
    if x0 < x1 {
      RowCommandsLength(w, y, x0, x1 - 1, camX, camY);
    }
  }

  /** Two commands per tile: the stream has `2 * rows * columns` commands, none when either span is empty. */
  lemma {:induction false} GridCommandsLength(w: World, y0: int, y1: int, x0: int, x1: int, camX: int, camY: int)
    ensures |GridCommands(w, y0, y1, x0, x1, camX, camY)| == 2 * (Span(y0, y1).Length() * Span(x0, x1).Length())
    decreases y1 - y0
  {
    if y0 < y1 {
      var n, c := Span(y0, y1 - 1).Length(), Span(x0, x1).Length();
      GridCommandsLength(w, y0, y1 - 1, x0, x1, camX, camY);
      RowCommandsLength(w, y1 - 1, x0, x1, camX, camY);
      GridCommandsStep(w, y0, y1, x0, x1, camX, camY);
      assert Span(y0, y1).Length() == n + 1;
      MulSucc(n, c);
    }
  }

  /** The last row's commands come after those of the rows above it. */
  lemma GridCommandsStep(w: World, y0: int, y1: int, x0: int, x1: int, camX: int, camY: int)
    requires y0 < y1
    ensures GridCommands(w, y0, y1, x0, x1, camX, camY)
            == GridCommands(w, y0, y1 - 1, x0, x1, camX, camY) + RowCommands(w, y1 - 1, x0, x1, camX, camY)
  {
  }

  /** The commands of a block of rows are those of its upper part followed by those of its lower part. */
  lemma {:induction false} GridCommandsSplit(w: World, y0: int, y: int, y1: int, x0: int, x1: int, camX: int, camY: int)
    requires y0 <= y <= y1
    ensures GridCommands(w, y0, y1, x0, x1, camX, camY)
            == GridCommands(w, y0, y, x0, x1, camX, camY) + GridCommands(w, y, y1, x0, x1, camX, camY)
    decreases y1 - y
  {
    if y < y1 {
      GridCommandsSplit(w, y0, y, y1 - 1, x0, x1, camX, camY);
      GridCommandsStep(w, y0, y1, x0, x1, camX, camY);
      GridCommandsStep(w, y, y1, x0, x1, camX, camY);
      ConcatAssociative(GridCommands(w, y0, y, x0, x1, camX, camY), GridCommands(w, y, y1 - 1, x0, x1, camX, camY),
                        RowCommands(w, y1 - 1, x0, x1, camX, camY));
    } else {
      assert GridCommands(w, y, y1, x0, x1, camX, camY) == [];
    }
  }

  /** A block of one row holds that row's commands. */
  lemma GridCommandsOneRow(w: World, y: int, x0: int, x1: int, camX: int, camY: int)
    ensures GridCommands(w, y, y + 1, x0, x1, camX, camY) == RowCommands(w, y, x0, x1, camX, camY)
  {
    GridCommandsStep(w, y, y + 1, x0, x1, camX, camY);
    assert GridCommands(w, y, y, x0, x1, camX, camY) == [];
  }

  /** The commands of a block of rows, cut around row `y`: the rows above, row `y`, then the rest. */
  lemma GridCommandsAround(w: World, y0: int, y: int, y1: int, x0: int, x1: int, camX: int, camY: int)
    returns (below: seq<Command>)
    requires y0 <= y < y1
    ensures GridCommands(w, y0, y1, x0, x1, camX, camY)
            == GridCommands(w, y0, y, x0, x1, camX, camY) + RowCommands(w, y, x0, x1, camX, camY) + below
  {
    below := GridCommands(w, y + 1, y1, x0, x1, camX, camY);
    GridCommandsSplit(w, y0, y, y1, x0, x1, camX, camY);
    GridCommandsSplit(w, y, y + 1, y1, x0, x1, camX, camY);
    GridCommandsOneRow(w, y, x0, x1, camX, camY);
    ConcatAssociative(GridCommands(w, y0, y, x0, x1, camX, camY), RowCommands(w, y, x0, x1, camX, camY), below);
  }

  /**
   * Row-major order: within the commands for rows `y0 .. y1-1`, tile `(x0 + j, y)`
   * comes right after all the rows above it and the `j` tiles to its left:
   * its fill first, then its outline.
   */
  lemma GridCommandsAt(w: World, y0: int, y1: int, x0: int, x1: int, camX: int, camY: int, y: int, j: int)
    requires y0 <= y < y1
    requires 0 <= j < x1 - x0
    ensures var k := |GridCommands(w, y0, y, x0, x1, camX, camY)| + 2 * j;
            var cs := GridCommands(w, y0, y1, x0, x1, camX, camY);
            k + 1 < |cs| && cs[k] == Fill(w, x0 + j, y, camX, camY) && cs[k + 1] == Outline(x0 + j, y, camX, camY)
  {
    var below := GridCommandsAround(w, y0, y, y1, x0, x1, camX, camY);
    RowCommandsAt(w, y, x0, x1, camX, camY, j);
    PairInMiddle(GridCommands(w, y0, y1, x0, x1, camX, camY), GridCommands(w, y0, y, x0, x1, camX, camY),
                 RowCommands(w, y, x0, x1, camX, camY), below,
                 2 * j, Fill(w, x0 + j, y, camX, camY), Outline(x0 + j, y, camX, camY));
  }

  lemma ConcatAssociative<T>(a: seq<T>, b: seq<T>, c: seq<T>)
    ensures a + (b + c) == a + b + c
  {
  }

  /** Two neighbouring elements of the middle part `b` of `a + b + c`, found in the whole. */
  lemma PairInMiddle<T>(cs: seq<T>, a: seq<T>, b: seq<T>, c: seq<T>, k: int, p: T, q: T)
    requires cs == a + b + c
    requires 0 <= k && k + 1 < |b| && b[k] == p && b[k + 1] == q
    ensures |a| + k + 1 < |cs| && cs[|a| + k] == p && cs[|a| + k + 1] == q
  {
  }

  /** `draw` emits two commands per visible tile: `2 * rows * columns` in all. */
  lemma RenderLength(w: World, camX: int, camY: int, screenW: int, screenH: int)
    ensures var v := Visible(w, camX, camY, screenW, screenH);
            |Render(w, camX, camY, screenW, screenH)| == 2 * (v.rows.Length() * v.cols.Length())
  {
    var v := Visible(w, camX, camY, screenW, screenH);
    GridCommandsLength(w, v.rows.lo, v.rows.hi, v.cols.lo, v.cols.hi, camX, camY);
  }

  /**
   * Every tile in the visible rectangle is drawn at its row-major place: first
   * filled in the colour of its kind, then outlined in the grid-line colour,
   * both at its camera-shifted rectangle.
   */
  lemma RenderTile(w: World, camX: int, camY: int, screenW: int, screenH: int, x: int, y: int)
    requires WellFormed(w)
    requires Visible(w, camX, camY, screenW, screenH).cols.Contains(x)
    requires Visible(w, camX, camY, screenW, screenH).rows.Contains(y)
    ensures var v := Visible(w, camX, camY, screenW, screenH);
            var cs := Render(w, camX, camY, screenW, screenH);
            var k := 2 * ((y - v.rows.lo) * v.cols.Length() + (x - v.cols.lo));
            && 0 <= k && k + 1 < |cs|
            && cs[k] == DrawRect(TileColor(w.tiles[y][x]), Rect(x * TILE_SIZE - camX, y * TILE_SIZE - camY, TILE_SIZE, TILE_SIZE), 0)
            && cs[k + 1] == DrawRect(GRID_LINE, Rect(x * TILE_SIZE - camX, y * TILE_SIZE - camY, TILE_SIZE, TILE_SIZE), 1)
  {
    var v := Visible(w, camX, camY, screenW, screenH);
    var i, j, c := y - v.rows.lo, x - v.cols.lo, v.cols.Length();
    GridCommandsAt(w, v.rows.lo, v.rows.hi, v.cols.lo, v.cols.hi, camX, camY, y, j);
    GridCommandsLength(w, v.rows.lo, y, v.cols.lo, v.cols.hi, camX, camY);
    assert Span(v.rows.lo, y).Length() == i;
    assert |GridCommands(w, v.rows.lo, y, v.cols.lo, v.cols.hi, camX, camY)| + 2 * j == 2 * (i * c + j);
    IndexBelow(i, j, c, v.rows.Length());
  }

  /**
   * Completeness: every tile of the grid that is at least partly on screen is
   * filled and outlined, including the tiles cut by the screen's edges.
   */
  lemma RenderDrawsOverlappingTiles(w: World, camX: int, camY: int, screenW: int, screenH: int, x: int, y: int)
    requires WellFormed(w)
    requires 0 <= x < w.width && 0 <= y < w.height
    requires Overlaps(x, camX, screenW) && Overlaps(y, camY, screenH)
    ensures Fill(w, x, y, camX, camY) in Render(w, camX, camY, screenW, screenH)
    ensures Outline(x, y, camX, camY) in Render(w, camX, camY, screenW, screenH)
  {
    OverlappingTilesDrawn(camX, screenW, w.width, x);
    OverlappingTilesDrawn(camY, screenH, w.height, y);
    RenderTile(w, camX, camY, screenW, screenH, x, y);
    var v := Visible(w, camX, camY, screenW, screenH);
    var cs := Render(w, camX, camY, screenW, screenH);
    var k := 2 * ((y - v.rows.lo) * v.cols.Length() + (x - v.cols.lo));
    assert cs[k] == Fill(w, x, y, camX, camY) && cs[k + 1] == Outline(x, y, camX, camY);
  }

  /**
   * Soundness: every command emitted belongs to a tile of the grid that meets
   * the screen (overlaps it, or starts exactly at its right or bottom edge).
   */
  lemma RenderOnlyTouchingTiles(w: World, camX: int, camY: int, screenW: int, screenH: int, k: int)
    requires WellFormed(w)
    requires 0 <= k < |Render(w, camX, camY, screenW, screenH)|
    ensures exists x, y :: && 0 <= x < w.width && 0 <= y < w.height
                           && Touches(x, camX, screenW) && Touches(y, camY, screenH)
                           && Render(w, camX, camY, screenW, screenH)[k] in [Fill(w, x, y, camX, camY), Outline(x, y, camX, camY)]
  {
    var v := Visible(w, camX, camY, screenW, screenH);
    var cs := Render(w, camX, camY, screenW, screenH);
    RenderLength(w, camX, camY, screenW, screenH);
    var t := k / 2;
    var i, j := RowMajorSplit(t, v.cols.Length(), v.rows.Length());
    var x, y := v.cols.lo + j, v.rows.lo + i;
    RenderTile(w, camX, camY, screenW, screenH, x, y);
    AxisSpanExact(camX, screenW, w.width, x);
    AxisSpanExact(camY, screenH, w.height, y);
    assert k == 2 * t || k == 2 * t + 1;
    assert cs[k] in [Fill(w, x, y, camX, camY), Outline(x, y, camX, camY)];
  }

  /**
   * Bounded work: `draw` emits at most two commands for each of
   * `(ceil(screenW/TILE_SIZE) + 1) * (ceil(screenH/TILE_SIZE) + 1)` tiles,
   * whatever the camera and however large the world.
   */
  lemma RenderBounded(w: World, camX: int, camY: int, screenW: int, screenH: int)
    requires screenW >= 0 && screenH >= 0
    ensures |Render(w, camX, camY, screenW, screenH)|
            <= 2 * (((screenW + TILE_SIZE - 1) / TILE_SIZE + 1) * ((screenH + TILE_SIZE - 1) / TILE_SIZE + 1))
  {
    var v := Visible(w, camX, camY, screenW, screenH);
    var maxCols := (screenW + TILE_SIZE - 1) / TILE_SIZE + 1;
    var maxRows := (screenH + TILE_SIZE - 1) / TILE_SIZE + 1;
    RenderLength(w, camX, camY, screenW, screenH);
    AxisSpanBounded(camX, screenW, w.width);
    AxisSpanBounded(camY, screenH, w.height);
    MulMonotone(v.rows.Length(), v.cols.Length(), maxRows, maxCols);
    assert maxRows * maxCols == maxCols * maxRows;
  }

  /** On the default 1024 x 768 window, at most 17 x 13 = 221 tiles are drawn, for any world and camera. */
  lemma DefaultWindowBounded(w: World, camX: int, camY: int)
    ensures |Render(w, camX, camY, 1024, 768)| <= 2 * 221
  {
    var n := |Render(w, camX, camY, 1024, 768)|;
    RenderBounded(w, camX, camY, 1024, 768);
    assert n <= 2 * (17 * 13);
  }

  /** No commands at all exactly when the visible columns or the visible rows are an empty range. */
  lemma RenderEmpty(w: World, camX: int, camY: int, screenW: int, screenH: int)
    ensures var v := Visible(w, camX, camY, screenW, screenH);
            Render(w, camX, camY, screenW, screenH) == [] <==> v.cols.hi <= v.cols.lo || v.rows.hi <= v.rows.lo
  {
    var v := Visible(w, camX, camY, screenW, screenH);
    RenderLength(w, camX, camY, screenW, screenH);
    if v.cols.lo < v.cols.hi && v.rows.lo < v.rows.hi {
      MulMonotone(1, 1, v.rows.Length(), v.cols.Length());
    }
  }

  /** A camera right of the world's last column draws nothing at all. */
  lemma CameraPastWorldDrawsNothing(w: World, camX: int, camY: int, screenW: int, screenH: int)
    requires w.width * TILE_SIZE <= camX
    ensures Render(w, camX, camY, screenW, screenH) == []
  {
    FloorDivBound(camX, w.width);
    RenderEmpty(w, camX, camY, screenW, screenH);
  }

  /**
   * The program's own world of 40 x 30 tiles in a 1024 x 768 window, with the
   * camera at the origin: columns 0..16 and rows 0..12 are drawn, 221 tiles,
   * 442 commands. Column 16 and row 12 lie wholly off screen (see
   * `Culling.AlignedEdgeVisitsOffScreenTile`).
   */
  lemma StartupFrame(w: World)
    requires w.width == 40 && w.height == 30
    ensures Visible(w, 0, 0, 1024, 768) == View(Span(0, 17), Span(0, 13))
    ensures |Render(w, 0, 0, 1024, 768)| == 442
  {
    StartupView(w);
    RenderLength(w, 0, 0, 1024, 768);
  }

  /** At startup, column 16 (pixels 1024..1087) and row 12 (pixels 768..831) are drawn though wholly off screen. */
  lemma StartupDrawsOffScreenEdges(w: World)
    requires w.width == 40 && w.height == 30
    ensures Visible(w, 0, 0, 1024, 768).cols.Contains(16) && !Overlaps(16, 0, 1024)
    ensures Visible(w, 0, 0, 1024, 768).rows.Contains(12) && !Overlaps(12, 0, 768)
  {
    AlignedEdgeVisitsOffScreenTile(0, 1024, w.width);
    AlignedEdgeVisitsOffScreenTile(0, 768, w.height);
  }

  lemma StartupView(w: World)
    requires w.width == 40 && w.height == 30
    ensures Visible(w, 0, 0, 1024, 768) == View(Span(0, 17), Span(0, 13))
    ensures Visible(w, 0, 0, 1024, 768).cols.Length() == 17
    ensures Visible(w, 0, 0, 1024, 768).rows.Length() == 13
  {
  }

  /**
   * Camera at (32, 0): column 0 is half off the left edge and column 16, at pixels
   * 1024..1087, is half off the right edge; both are drawn.
   */
  lemma HalfTileCameraDrawsBothEdges(w: World, camX: int)
    requires WellFormed(w) && w.width == 40 && w.height == 30
    requires camX == TILE_SIZE / 2
    ensures Visible(w, camX, 0, 1024, 768).cols == Span(0, 17)
    ensures Fill(w, 0, 0, camX, 0) in Render(w, camX, 0, 1024, 768)
    ensures Fill(w, 16, 0, camX, 0) in Render(w, camX, 0, 1024, 768)
  {
    RenderDrawsOverlappingTiles(w, camX, 0, 1024, 768, 0, 0);
    RenderDrawsOverlappingTiles(w, camX, 0, 1024, 768, 16, 0);
  }

  /**
   * Camera at the far corner (1536, 1152): the `+ 1` would reach past the grid,
   * and the clamp stops the columns at 40 and the rows at 30.
   */
  lemma FarCornerFrame(w: World)
    requires w.width == 40 && w.height == 30
    ensures Visible(w, 1536, 1152, 1024, 768) == View(Span(24, 40), Span(18, 30))
    ensures |Render(w, 1536, 1152, 1024, 768)| == 384
  {
    var v := Visible(w, 1536, 1152, 1024, 768);
    assert v.rows.Length() == 12 && v.cols.Length() == 16;
    RenderLength(w, 1536, 1152, 1024, 768);
  }
}
