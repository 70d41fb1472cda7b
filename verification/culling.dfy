/**
 * Viewport culling in `World.draw`: from the camera offset and the screen size,
 * the rectangle of tile indices `range(start_y, end_y) x range(start_x, end_x)`
 * that the draw loops visit. Both axes use the same formula, so it is stated
 * once, for one axis, as `AxisSpan`.
 */
module Culling {
  import opened Arith
  import opened Tiles
  import opened TileWorld

  /** Python's `range(lo, hi)`: empty when `hi <= lo`. */
  datatype Span = Span(lo: int, hi: int) {
    function Length(): (n: nat)
      ensures n == 0 <==> hi <= lo
      ensures lo <= hi ==> n == hi - lo
    {
      if hi <= lo then 0 else hi - lo
    }

    predicate Contains(i: int) {
      lo <= i < hi
    }
  }

  /** The columns (`cols`) and rows (`rows`) that are drawn. */
  datatype View = View(cols: Span, rows: Span)

  /**
   * One axis of the culling: `cam` is the camera offset in pixels, `extent`
   * the screen size in pixels and `limit` the number of tiles on this axis.
   * Python's `//` by the positive `TILE_SIZE` is floor division, as Dafny's `/`.
   * The `+ 1` takes in the tile that is only partly on screen.
   * Whatever the camera and screen, the span stays inside `[0, limit)`.
   */
  function AxisSpan(cam: int, extent: int, limit: int): (s: Span)
    ensures 0 <= s.lo
    ensures s.hi <= limit
  {
    Span(Max(0, cam / TILE_SIZE), Min(limit, (cam + extent) / TILE_SIZE + 1))
  }

  /** The tile rectangle that `draw` visits. */
  function Visible(w: World, camX: int, camY: int, screenW: int, screenH: int): (v: View)
    ensures 0 <= v.cols.lo && v.cols.hi <= w.width
    ensures 0 <= v.rows.lo && v.rows.hi <= w.height
  {
    View(AxisSpan(camX, screenW, w.width), AxisSpan(camY, screenH, w.height))
  }

  /**
   * Tile `i`, which covers the pixels `[i*TILE_SIZE, (i+1)*TILE_SIZE)`,
   * overlaps the screen's pixels `[cam, cam+extent)`.
   */
  predicate Overlaps(i: int, cam: int, extent: int) {
    i * TILE_SIZE < cam + extent && cam < (i + 1) * TILE_SIZE
  }

  /**
   * Tile `i` meets the closed pixel interval `[cam, cam+extent]`: it overlaps the
   * screen or starts exactly at its far edge.
   */
  predicate Touches(i: int, cam: int, extent: int) {
    i * TILE_SIZE <= cam + extent && cam < (i + 1) * TILE_SIZE
  }

  /** Floor division by the tile size: `i <= a // TILE_SIZE` exactly when `i*TILE_SIZE <= a`. */
  lemma FloorDivBound(a: int, i: int)
    ensures i <= a / TILE_SIZE <==> i * TILE_SIZE <= a
  {
    var q, r := a / TILE_SIZE, a % TILE_SIZE;
    assert a == q * TILE_SIZE + r && 0 <= r < TILE_SIZE;
    if i <= q {
      assert i * TILE_SIZE <= q * TILE_SIZE;
    } else {
      assert i * TILE_SIZE >= (q + 1) * TILE_SIZE;
    }
  }

  /**
   * The span is exactly the tiles of the axis that meet the screen: a tile is
   * drawn if and only if it is inside the grid and touches `[cam, cam+extent]`.
   */
  lemma AxisSpanExact(cam: int, extent: int, limit: int, i: int)
    ensures AxisSpan(cam, extent, limit).Contains(i) <==> 0 <= i < limit && Touches(i, cam, extent)
  {
    FloorDivBound(cam + extent, i);
    FloorDivBound(cam, i + 1);
  }

  /** Edge inclusion: every tile of the grid that is even partly on screen is drawn. */
  lemma OverlappingTilesDrawn(cam: int, extent: int, limit: int, i: int)
    requires 0 <= i < limit
    requires Overlaps(i, cam, extent)
    ensures AxisSpan(cam, extent, limit).Contains(i)
  {
    AxisSpanExact(cam, extent, limit, i);
  }

  /**
   * Bounded work: at most `ceil(extent/TILE_SIZE) + 1` tiles per axis,
   * whatever the camera and however many tiles the world has.
   */
  lemma AxisSpanBounded(cam: int, extent: int, limit: int)
    requires extent >= 0
    ensures AxisSpan(cam, extent, limit).Length() <= (extent + TILE_SIZE - 1) / TILE_SIZE + 1
  {
    var q, r := cam / TILE_SIZE, cam % TILE_SIZE;
    assert cam == q * TILE_SIZE + r && 0 <= r < TILE_SIZE;
    assert (cam + extent) / TILE_SIZE == q + (r + extent) / TILE_SIZE;
    assert (r + extent) / TILE_SIZE <= (extent + TILE_SIZE - 1) / TILE_SIZE;
  }

  /**
   * A screen of zero width still gets the one tile under the camera, when that
   * tile is inside the grid: the `+ 1` adds it even though nothing overlaps.
   */
  lemma ZeroExtentSpansOneTile(cam: int, limit: int)
    requires 0 <= cam / TILE_SIZE < limit
    ensures AxisSpan(cam, 0, limit) == Span(cam / TILE_SIZE, cam / TILE_SIZE + 1)
    ensures AxisSpan(cam, 0, limit).Length() == 1
  {
  }

  /**
   * Over-draw: when the screen's far edge falls exactly on a tile boundary,
   * the `+ 1` visits the tile that starts at that edge, which lies wholly off
   * screen.
   */
  lemma AlignedEdgeVisitsOffScreenTile(cam: int, extent: int, limit: int)
    requires (cam + extent) % TILE_SIZE == 0
    requires extent >= 0
    requires 0 <= (cam + extent) / TILE_SIZE < limit
    ensures AxisSpan(cam, extent, limit).Contains((cam + extent) / TILE_SIZE)
    ensures !Overlaps((cam + extent) / TILE_SIZE, cam, extent)
  {
    var e := (cam + extent) / TILE_SIZE;
    assert e * TILE_SIZE == cam + extent;
    AxisSpanExact(cam, extent, limit, e);
  }

  /** A negative camera shows the same over-draw: at -10 with 1034 pixels, column 16 starts at the far edge. */
  lemma NegativeCameraAlignedEdge()
    ensures AxisSpan(-10, 1034, 40).Contains(16) && !Overlaps(16, -10, 1034)
  {
    AlignedEdgeVisitsOffScreenTile(-10, 1034, 40);
  }
}
