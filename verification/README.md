# Tile world and viewport of the Evolutionary Farming Simulator

This project models the world and viewport logic of the simulator's `main.py` in Dafny.

- **World grid.** `World.__init__` builds a grid of `height` rows of `width` tile kinds. `_generate_tile` clamps each kind into 0..3.
- **Colours.** `get_tile_color` maps a kind to its colour.
- **Drawing.** `World.draw` turns a camera offset and a screen size into a rectangle of tile indices to draw: every tile on screen, and at a tile-aligned edge one more column or row. It then issues two rectangle draws per tile of that rectangle: a fill in the tile's colour, then a grid-line outline of width 1.
- **Camera.** The frame loop in `main` moves the camera with the arrow keys and clamps it with `max`/`min`.

Modules, in dependency order:

- `Arith` (`arith.dfy`): Python's `max` and `min`, plus a few facts about products used for row-major indexing.
- `Tiles` (`tiles.dfy`):
  - the tile size, the colours and the colour table;
  - the integer clamp of `_generate_tile` (`Classify`);
  - `get_tile_color` (`TileColor`).
- `TileWorld` (`world.dfy`):
  - the world as a value, since its fields are never reassigned after construction;
  - its well-formedness, the generator and the constructor.
- `Culling` (`culling.dfy`):
  - the index range `draw` visits on one axis (`AxisSpan`);
  - the rectangle of both axes (`Visible`);
  - an exact characterisation of which tiles fall in that range.
- `Drawing` (`drawing.dfy`):
  - `pygame.draw.rect` calls become `DrawRect` commands appended to a sequence;
  - `Render` is the row-major command stream of the visible rectangle;
  - `Draw` is the nested `while` loop of `draw`, proved to emit exactly `Render`;
  - the rest are lemmas about `Render`: order, contents, count, completeness, soundness and bounded work.
- `Camera` (`camera.dfy`):
  - one coordinate's update per frame, as written (`MoveCamera`);
  - a corrected version (`MoveCameraClamped`);
  - the property that separates them (see Findings).

Inputs the program reads from the outside are parameters:

- the sine/cosine noise is a function `noise`;
- the screen size is `screenW`/`screenH`;
- the per-frame step `int(camera_speed * dt)` is a natural number `d`.

Python's `//` by the positive `TILE_SIZE` rounds down, as Dafny's `/` on `int` does, so negative camera offsets are modelled exactly.

In three places the code does something other than one might expect; the last two go against the comment "Calculate visible tiles" (main.py:56). The model follows the code in all three:

- **Non-positive grid dimensions.** The constructor does not reject them. `range` of a non-positive number is empty, so the grid simply has no rows or no cells (`NewWorld`, `RangeLength`).
- **A screen of zero width or height still gets one column or row.** The tile under the camera is drawn because of the `+ 1` in the end index (`Culling.ZeroExtentSpansOneTile`). It is not an empty picture.
- **An off-screen column or row is drawn when the screen's edge is tile-aligned.** When `cam + extent` is a multiple of `TILE_SIZE`, the `+ 1` in the end index adds a tile that starts exactly at the screen's right or bottom edge, so it lies wholly off screen (`Culling.AlignedEdgeVisitsOffScreenTile`). At startup this is column 16 and row 12: 29 of the 221 tiles drawn (`Drawing.StartupDrawsOffScreenEdges`). The model states the drawn set exactly, through `Touches` (`Culling.AxisSpanExact`, `Drawing.RenderOnlyTouchingTiles`).

## Model

| member | source | states |
|---|---|---|
| Tiles.Classify | main.py:40 | The clamp `max(0, min(3, level))` always gives a kind in 0..3. A level already in 0..3 is kept. A negative level gives 0 and a level above 3 gives 3. |
| Tiles.ClassifyMonotone | main.py:40 | A higher noise level never gives a lower kind. |
| Tiles.TileColor | main.py:42-50 | Kinds 0, 1, 2, 3 get water blue, sand beige, grass green and dirt brown, with the source's RGB values. Every other integer gets black, and the lookup never fails. |
| Tiles.TileColorSentinel | main.py:50 | The lookup returns black exactly for the integers that are not kinds. |
| Tiles.ClassifiedKindsHaveColors | main.py:40-50 | Every kind the generator can produce has its own table colour, never the black sentinel. |
| TileWorld.RangeLength | main.py:34 | `range(n)` has `n` elements, or none when `n <= 0`. |
| TileWorld.GenerateTile | main.py:36-40 | A generated tile is a kind in 0..3. It equals the noise level whenever that level is already a kind. |
| TileWorld.NewWorld | main.py:27-34 | The constructed world is well-formed: `height` rows of `width` kinds, each in 0..3. It keeps the given dimensions, starts with camera fields 0, and has `tiles[y][x]` equal to the generator at `(x, y)`. |
| Culling.Span.Length | main.py:63-64 | A `range(lo, hi)` is empty exactly when `hi <= lo`, and otherwise has `hi - lo` elements. |
| Culling.AxisSpan | main.py:57-60 | On each axis the visited indices start at 0 or later and end at the number of tiles or earlier, for every camera and screen size. |
| Culling.Visible | main.py:57-60 | The visited columns lie inside `[0, width)` and the rows inside `[0, height)`, so every `tiles[y][x]` that `draw` reads is in range. |
| Culling.FloorDivBound | main.py:57-59 | `i <= a // TILE_SIZE` holds exactly when `i * TILE_SIZE <= a`, for negative `a` too. |
| Culling.AxisSpanExact | main.py:57-64 | A tile index is visited if and only if it is inside the grid and its pixel square meets the closed interval `[cam, cam + extent]`. |
| Culling.OverlappingTilesDrawn | main.py:57-64 | Edge inclusion: a grid tile that overlaps the screen even partly is visited. |
| Culling.AxisSpanBounded | main.py:57-64 | At most `ceil(extent / TILE_SIZE) + 1` indices are visited per axis, whatever the camera and the world size. |
| Culling.AlignedEdgeVisitsOffScreenTile | main.py:57-60 | For every camera, negative ones included, when `cam + extent` is a multiple of `TILE_SIZE`, the tile starting at the screen's far edge is visited although it does not overlap the screen. |
| Culling.ZeroExtentSpansOneTile | main.py:57-60 | With a zero screen extent, exactly the one tile under the camera is visited, when it is inside the grid. |
| Culling.NegativeCameraAlignedEdge | main.py:57-60 | With a negative camera (-10, screen 1034 pixels) the tile at the aligned far edge, column 16, is still drawn though off screen. |
| Drawing.TileRectOnScreen | main.py:65-66 | The rectangle painted for a tile, at its world pixel position shifted by the camera, meets the window exactly when the tile overlaps the screen in world pixels, on each axis. |
| Drawing.Draw | main.py:52-82 | The nested loops emit exactly the row-major command stream `Render` of the visible rectangle. Every tile read is in range. |
| Drawing.RowCommandsAt | main.py:64-82 | A row of `n` tiles gives `2n` commands. Command `2j` is the fill of the `j`-th tile and `2j + 1` is its outline. |
| Drawing.RowCommandsLength | main.py:64-82 | A row's stream has two commands per tile of the column range, and none for an empty range. |
| Drawing.GridCommandsSplit | main.py:63-64 | The stream of a block of rows is the stream of its upper part followed by that of its lower part. |
| Drawing.GridCommandsAround | main.py:63-64 | The stream of a block of rows is: the rows above row `y`, then row `y`, then the rest. |
| Drawing.GridCommandsLength | main.py:63-82 | The stream has `2 * rows * columns` commands. |
| Drawing.GridCommandsAt | main.py:63-82 | Row-major order: tile `(x0 + j, y)` is drawn just after all the rows above it and the `j` tiles to its left, fill first, then outline. |
| Drawing.RenderLength | main.py:57-82 | `draw` emits `2 * (end_y - start_y) * (end_x - start_x)` commands, counting an empty range as 0. |
| Drawing.RenderEmpty | main.py:57-64 | Nothing is emitted exactly when the visible columns or the visible rows are an empty range. |
| Drawing.RenderTile | main.py:63-82 | Each visible tile `(x, y)` sits at its row-major position in the stream. Its first command fills `(x*TILE_SIZE - camera_x, y*TILE_SIZE - camera_y, TILE_SIZE, TILE_SIZE)` in `get_tile_color(tiles[y][x])`. Its second outlines the same rectangle in `GRID_LINE` with width 1. |
| Drawing.RenderDrawsOverlappingTiles | main.py:57-82 | Completeness: every grid tile that is even partly on screen is filled and outlined. |
| Drawing.RenderOnlyTouchingTiles | main.py:57-82 | Soundness: every emitted command is the fill or the outline of a grid tile that meets the screen on both axes. |
| Drawing.RenderBounded | main.py:57-64 | Bounded work: at most `2 * (ceil(w/64) + 1) * (ceil(h/64) + 1)` commands for a `w x h` screen, independent of the world size. |
| Drawing.DefaultWindowBounded | main.py:57-64 | In the 1024 x 768 window, at most 17 x 13 tiles (442 commands) are drawn for every world and camera. |
| Drawing.CameraPastWorldDrawsNothing | main.py:57-64 | A camera beyond the world's last column draws nothing. |
| Drawing.StartupView | main.py:57-60 | For the 40 x 30 world in the 1024 x 768 window with the camera at the origin, columns 0..16 and rows 0..12 are drawn. |
| Drawing.StartupDrawsOffScreenEdges | main.py:59-60 | In that first frame, column 16 and row 12 are drawn although neither overlaps the window. |
| Drawing.StartupFrame | main.py:57-82 | The first frame of the 40 x 30 world in the 1024 x 768 window draws 221 tiles: 442 commands. |
| Drawing.HalfTileCameraDrawsBothEdges | main.py:57-64 | With the camera at (32, 0), the half-visible column 0 and the half-visible column 16 are both drawn. |
| Drawing.FarCornerFrame | main.py:59-60 | At camera (1536, 1152) the `+ 1` would pass the grid. The clamp stops at column 40 and row 30, giving 16 x 12 tiles: 384 commands. |
| Camera.StepBack | main.py:122-123 | LEFT/UP gives `camera - d` when that is non-negative, and 0 otherwise, so never a negative offset. |
| Camera.StepForward | main.py:124-126 | RIGHT/DOWN gives `camera + d` up to the limit `tiles*TILE_SIZE - screen`, and the limit beyond it. It is never above the limit. |
| Camera.MoveCamera | main.py:122-126 | The frame's update, LEFT then RIGHT: no key leaves the camera unchanged, LEFT alone never goes negative, and RIGHT never passes the limit. |
| Camera.MoveCameraKeepsInView | main.py:122-131 | When the world is at least as large as the screen, a camera that shows only the world still does so after the update. |
| Camera.MoveCameraLeavesView | main.py:124-126 | As written, when the world is smaller than the screen, RIGHT takes every camera in view to a negative offset, whatever the step and whether LEFT is held too. |
| Camera.MoveCameraLeavesViewExample | main.py:124-126 | As written, RIGHT on a 40-tile world in a 3000-pixel window takes the camera from 0 to -440. |
| Camera.MoveCameraClamped | main.py:122-131 | The corrected update also clamps the RIGHT/DOWN step at 0. RIGHT then lands in `[0, max(0, limit)]`. |
| Camera.MoveCameraClampedKeepsInView | main.py:122-131 | The corrected update keeps the camera in view for every world and screen size. |
| Camera.MoveCameraClampedAgrees | main.py:122-131 | When the world is at least as large as the screen, the corrected update equals the written one for every camera in view. |

## Left out

- All pygame I/O, which is foreign library code: the window, event polling, `key.get_pressed`, `screen.fill`, font rendering, `blit` and `display.flip`. A `pygame.draw.rect` call is modelled only as the command it issues (`Drawing.Command`).
- The floating-point noise `sin(x*0.1) * cos(y*0.1) * 2` and its `int()` truncation. This is floating point. The generator takes the resulting level from the parameter `noise`, and only the integer clamp is modelled.
- The floating-point step `camera_speed * dt` and the clock. The step is the natural-number parameter `d`.
- The frame loop itself, window resizing, `try`/`finally` and `sys.exit`. These are control flow with no logic of their own. `screen.get_size()` and `screen.get_width()`/`get_height()` become the screen-size parameters.
- The vertical camera update (UP/DOWN, main.py:127-131). It is the horizontal one with `height` and the screen height, so `Camera` states it once for one coordinate.
- `draw` not changing the world. The world is a value in the model, so no operation can change it.
- The module-level constants `FPS` and `SOIL_BROWN`, the screen-clear colour (the module-level `GRASS_GREEN`), and the `sys.path` setup. They feed only the I/O above. `Tiles.GRASS_GREEN` is the colour table's grass entry, which has the same value. The grid size 40 x 30 and the window 1024 x 768 appear only in the scenario lemmas of `Drawing`.
- Drawing.KindAt: gives -1 outside the grid so that the stream functions are total. `Draw` reads only inside the grid (it requires a well-formed world), and `Drawing.RenderTile` states the colour in terms of `tiles[y][x]`.

## Findings

| source | as written | input that shows it | evidently intended | confidence | as-written member | corrected member |
|---|---|---|---|---|---|---|
| main.py:124-131 | The RIGHT/DOWN step clamps only from above, to `world.width*TILE_SIZE - screen width`. That bound is negative when the world is smaller than the window. | 40 tiles of 64 pixels (2560) in a 3000-pixel-wide window, camera 0, RIGHT held with any step: the camera becomes -440. | The camera stays at 0 when the world is smaller than the window, as the LEFT/UP step guarantees. | not executed | Camera.MoveCameraLeavesView | Camera.MoveCameraClamped |
