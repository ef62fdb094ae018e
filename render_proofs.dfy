/** Properties of the canvas operations of `Render`: what the grid and a tile
    write and what they leave alone, where tiles and labels land, and how
    tiles in different cells combine. */
module RenderProofs {
  import opened ImageOps
  import opened Tiles
  import opened Render

  // ---- arithmetic on cell spans ----

  /** The remainder is the unique r in [0, s) with a == s * q + r. */
  lemma ModUnique(a: int, s: int, q: int, r: int)
    requires s > 0 && a == s * q + r && 0 <= r < s
    ensures a % s == r
  {
    var q', r' := a / s, a % s;
    if q > q' {
      MulMonotone(1, q - q', s);
    } else if q < q' {
      MulMonotone(1, q' - q, s);
    }
  }

  /** A multiple of `scale` lies on a grid line. */
  lemma MultipleMod(k: nat, scale: nat)
    requires scale > 0
    ensures (k * scale) % scale == 0
  {
    ModUnique(k * scale, scale, k, 0);
  }

  /** The span of cell `a` ends at or before the start of the span of a later cell `b`. */
  lemma {:induction false} SpanBefore(a: nat, b: nat, scale: nat)
    requires a < b
    ensures a * scale + scale <= b * scale
  {
    MulMonotone(a + 1, b, scale);
    assert (a + 1) * scale == a * scale + scale;
  }

  /** Pixel x lies in the x-span of the tile in column c. */
  predicate InSpan(x: int, c: nat, scale: nat)
  {
    c * scale + 1 <= x < c * scale + 1 + scale
  }

  /** The spans of two different columns (or rows) share no pixel. */
  lemma SpansDisjoint(a: nat, b: nat, scale: nat, x: int)
    requires a != b
    ensures !(InSpan(x, a, scale) && InSpan(x, b, scale))
  {
    if a < b { SpanBefore(a, b, scale); } else { SpanBefore(b, a, scale); }
  }

  // ---- the canvas and its grid ----

  /** Drawing the grid twice leaves the same canvas as drawing it once. */
  lemma GridIdempotent(img: Image, scale: nat)
    requires scale > 0
    ensures GridOver(GridOver(img, scale), scale) == GridOver(img, scale)
  {
    var once := GridOver(img, scale);
    var twice := GridOver(once, scale);
    forall y | 0 <= y < img.height
      ensures twice.px[y] == once.px[y]
    {
      assert forall x :: 0 <= x < img.width ==> twice.px[y][x] == once.px[y][x];
    }
  }

  /** A pixel is grid white after the grid exactly when it lies on a grid line or
      was grid white before; every other pixel keeps its colour. */
  lemma GridOverPixel(img: Image, scale: nat, x: nat, y: nat)
    requires scale > 0 && x < img.width && y < img.height
    ensures OnGridLine(x, y, scale) ==> GridOver(img, scale).px[y][x] == GRID_WHITE
    ensures !OnGridLine(x, y, scale) ==> GridOver(img, scale).px[y][x] == img.px[y][x]
    ensures GridOver(img, scale).px[y][x] == GRID_WHITE <==> OnGridLine(x, y, scale) || img.px[y][x] == GRID_WHITE
  {
  }

  /** On a canvas of `cols` cells, every cell boundary column `k * scale`,
      including both edges, lies on the canvas and is grid white from top to
      bottom after the grid. */
  lemma GridColumnAtBoundary(img: Image, cols: nat, scale: nat, k: nat, y: nat)
    requires scale > 0 && img.width == Extent(cols, scale)
    requires k <= cols && y < img.height
    ensures k * scale < img.width
    ensures GridOver(img, scale).px[y][k * scale] == GRID_WHITE
  {
    MulMonotone(k, cols, scale);
    MultipleMod(k, scale);
  }

  /** Likewise every cell boundary row `k * scale` is grid white after the grid. */
  lemma GridRowAtBoundary(img: Image, rows: nat, scale: nat, k: nat, x: nat)
    requires scale > 0 && img.height == Extent(rows, scale)
    requires k <= rows && x < img.width
    ensures k * scale < img.height
    ensures GridOver(img, scale).px[k * scale][x] == GRID_WHITE
  {
    MulMonotone(k, rows, scale);
    MultipleMod(k, scale);
  }

  // ---- tiles ----

  /** The tile of an in-range cell lies wholly inside the derived canvas: it
      starts past the leading grid lines and ends exactly on the cell's
      trailing grid line, which for the last cell is the canvas's last pixel. */
  lemma TileRegionInCanvas(cols: nat, rows: nat, col: U32, row: U32, scale: U32)
    requires col < cols && row < rows && OriginFits(col, row, scale)
    ensures 1 <= TileOrigin(col, row, scale).0 && 1 <= TileOrigin(col, row, scale).1
    ensures TileOrigin(col, row, scale).0 + scale == (col + 1) * scale + 1 <= Extent(cols, scale)
    ensures TileOrigin(col, row, scale).1 + scale == (row + 1) * scale + 1 <= Extent(rows, scale)
  {
    MulMonotone(col + 1, cols, scale);
    MulMonotone(row + 1, rows, scale);
  }

  /** Every tile of a cell inside the room can be placed on a canvas that
      could be allocated: its origin fits in u32 and a resize buffer, being
      no larger than the canvas, fits in the allocation limit. */
  lemma TileFitsInCanvas(cols: nat, rows: nat, col: U32, row: U32, src: DecodeOutcome, scale: U32)
    requires col < cols && row < rows && CanvasFits(cols, rows, scale)
    ensures TileFits(col, row, src, scale)
  {
    var ec, er := Extent(cols, scale), Extent(rows, scale);
    MulMonotone(col, cols, scale);
    MulMonotone(row, rows, scale);
    MulMonotone(1, cols, scale);
    MulMonotone(1, rows, scale);
    MulMonotone(scale, ec, scale);
    MulMonotone(scale, er, ec);
    assert scale * scale <= ec * er;
  }

  /** A failed read or decode leaves the canvas as it was. */
  lemma TileDrawnFailure(img: Image, col: U32, row: U32, src: DecodeOutcome, scale: U32, blend: (Rgba, Rgba) -> Rgba)
    requires !src.Decoded?
    ensures TileDrawn(img, col, row, src, scale, blend) == img
  {
  }

  /** Placing a tile changes only pixels in the `scale × scale` square at the
      tile origin. */
  lemma TileDrawnFrame(img: Image, col: U32, row: U32, src: DecodeOutcome, scale: U32,
                       blend: (Rgba, Rgba) -> Rgba, x: nat, y: nat)
    requires (src.Decoded? ==> OriginFits(col, row, scale)) && x < img.width && y < img.height
    requires TileDrawn(img, col, row, src, scale, blend).px[y][x] != img.px[y][x]
    ensures src.Decoded? && InSpan(x, col, scale) && InSpan(y, row, scale)
  {
  }

  /** For an in-range cell on the derived canvas every pixel of the square is
      written: pixel (i, j) of the prepared tile is blended over the canvas
      pixel at the tile origin plus (i, j). */
  lemma TileDrawnInside(img: Image, cols: nat, rows: nat, col: U32, row: U32, t: Image, scale: U32,
                        blend: (Rgba, Rgba) -> Rgba, i: nat, j: nat)
    requires img.width == Extent(cols, scale) && img.height == Extent(rows, scale)
    requires col < cols && row < rows && OriginFits(col, row, scale)
    requires i < scale && j < scale
    ensures var o := TileOrigin(col, row, scale);
      o.0 + i < img.width && o.1 + j < img.height
      && TileDrawn(img, col, row, Decoded(t), scale, blend).px[o.1 + j][o.0 + i]
         == blend(img.px[o.1 + j][o.0 + i], PrepareTile(t, scale).px[j][i])
  {
    TileRegionInCanvas(cols, rows, col, row, scale);
  }

  /** A tile never touches the cell's leading grid lines (column `col * scale`
      and row `row * scale`). */
  lemma TileSparesLeadingGridLines(img: Image, col: U32, row: U32, src: DecodeOutcome, scale: U32,
                                   blend: (Rgba, Rgba) -> Rgba, x: nat, y: nat)
    requires (src.Decoded? ==> OriginFits(col, row, scale)) && x < img.width && y < img.height
    requires x == col * scale || y == row * scale
    ensures TileDrawn(img, col, row, src, scale, blend).px[y][x] == img.px[y][x]
  {
  }

  /** A tile does cover the cell's trailing grid column `(col + 1) * scale`,
      a multiple of `scale`: its last tile column is blended over it. */
  lemma TileCoversTrailingGridColumn(img: Image, cols: nat, rows: nat, col: U32, row: U32, t: Image,
                                     scale: U32, blend: (Rgba, Rgba) -> Rgba, j: nat)
    requires img.width == Extent(cols, scale) && img.height == Extent(rows, scale)
    requires col < cols && row < rows && OriginFits(col, row, scale)
    requires 0 < scale && j < scale
    ensures var x, y := (col + 1) * scale, row * scale + 1 + j;
      x % scale == 0 && x < img.width && y < img.height
      && TileDrawn(img, col, row, Decoded(t), scale, blend).px[y][x]
         == blend(img.px[y][x], PrepareTile(t, scale).px[j][scale - 1])
  {
    MultipleMod(col + 1, scale);
    TileDrawnInside(img, cols, rows, col, row, t, scale, blend, scale - 1, j);
  }

  /** Likewise a tile covers the cell's trailing grid row `(row + 1) * scale`:
      its last tile row is blended over it. */
  lemma TileCoversTrailingGridRow(img: Image, cols: nat, rows: nat, col: U32, row: U32, t: Image,
                                  scale: U32, blend: (Rgba, Rgba) -> Rgba, i: nat)
    requires img.width == Extent(cols, scale) && img.height == Extent(rows, scale)
    requires col < cols && row < rows && OriginFits(col, row, scale)
    requires 0 < scale && i < scale
    ensures var x, y := col * scale + 1 + i, (row + 1) * scale;
      y % scale == 0 && x < img.width && y < img.height
      && TileDrawn(img, col, row, Decoded(t), scale, blend).px[y][x]
         == blend(img.px[y][x], PrepareTile(t, scale).px[scale - 1][i])
  {
    MultipleMod(row + 1, scale);
    TileDrawnInside(img, cols, rows, col, row, t, scale, blend, i, scale - 1);
  }

  /** Tiles placed in two different cells do not interfere: placing them in
      either order gives the same canvas. */
  lemma TileDrawnCommute(img: Image, c1: U32, r1: U32, src1: DecodeOutcome, c2: U32, r2: U32,
                         src2: DecodeOutcome, scale: U32, blend: (Rgba, Rgba) -> Rgba)
    requires src1.Decoded? ==> OriginFits(c1, r1, scale)
    requires src2.Decoded? ==> OriginFits(c2, r2, scale)
    requires c1 != c2 || r1 != r2
    ensures TileDrawn(TileDrawn(img, c1, r1, src1, scale, blend), c2, r2, src2, scale, blend)
         == TileDrawn(TileDrawn(img, c2, r2, src2, scale, blend), c1, r1, src1, scale, blend)
  {
    var a := TileDrawn(img, c1, r1, src1, scale, blend);
    var b := TileDrawn(img, c2, r2, src2, scale, blend);
    var ab := TileDrawn(a, c2, r2, src2, scale, blend);
    var ba := TileDrawn(b, c1, r1, src1, scale, blend);
    forall y | 0 <= y < img.height
      ensures ab.px[y] == ba.px[y]
    {
      forall x | 0 <= x < img.width
        ensures ab.px[y][x] == ba.px[y][x]
      {
        if c1 != c2 { SpansDisjoint(c1, c2, scale, x); } else { SpansDisjoint(r1, r2, scale, y); }
      }
    }
  }

  /** Two tiles on a fresh 2 × 2 canvas at scale 50, a plain terrain in cell
      (0, 0) and a wall in cell (1, 1): the canvas is 101 × 101, the cells
      that got no tile stay black, and each tile that decodes is blended
      over the black of its own cell. */
  lemma TwoTerrainTiles(decode: Asset -> DecodeOutcome, blend: (Rgba, Rgba) -> Rgba)
    ensures var r := TileDrawn(TileDrawn(Blank(2, 2, 50), 0, 0, decode(TerrainAsset(Plain)), 50, blend),
                               1, 1, decode(TerrainAsset(Wall)), 50, blend);
      r.width == 101 && r.height == 101
      && (forall x, y :: 51 <= x <= 100 && 1 <= y <= 50 ==> r.px[y][x] == BLACK)
      && (forall x, y :: 1 <= x <= 50 && 51 <= y <= 100 ==> r.px[y][x] == BLACK)
      && (decode(TerrainAsset(Plain)).Decoded? ==>
            forall x, y :: 1 <= x <= 50 && 1 <= y <= 50 ==>
              r.px[y][x] == blend(BLACK, PrepareTile(decode(TerrainAsset(Plain)).image, 50).px[y - 1][x - 1]))
      && (decode(TerrainAsset(Wall)).Decoded? ==>
            forall x, y :: 51 <= x <= 100 && 51 <= y <= 100 ==>
              r.px[y][x] == blend(BLACK, PrepareTile(decode(TerrainAsset(Wall)).image, 50).px[y - 51][x - 51]))
  {
  }

  // ---- labels ----

  /** A label starts one pixel right of and below its cell's tile origin; at
      scale 2 or more that pixel is inside the cell's tile square and on the
      derived canvas. */
  lemma LabelOriginInCell(cols: nat, rows: nat, col: U32, row: U32, scale: U32)
    requires col < cols && row < rows && 2 <= scale && LabelFits(col, row, scale)
    ensures OriginFits(col, row, scale)
    ensures LabelOrigin(col, row, scale) == (TileOrigin(col, row, scale).0 + 1, TileOrigin(col, row, scale).1 + 1)
    ensures InSpan(LabelOrigin(col, row, scale).0, col, scale) && InSpan(LabelOrigin(col, row, scale).1, row, scale)
    ensures LabelOrigin(col, row, scale).0 < Extent(cols, scale) && LabelOrigin(col, row, scale).1 < Extent(rows, scale)
  {
    TileRegionInCanvas(cols, rows, col, row, scale);
  }
}
