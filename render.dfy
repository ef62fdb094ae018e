/** The pixel canvas of `src/render.rs`: a canvas sized to a grid of
    `cols × rows` cells of `scale × scale` pixels plus one trailing grid line,
    filled opaque black, then changed in place by drawing grid lines and
    placing tiles. The pure functions here are the specification of what each
    in-place operation leaves on the canvas. */
module Render {
  import opened ImageOps
  import opened Tiles

  const DEFAULT_ROOM_MAX_COLUMNS: U32 := 50
  const DEFAULT_ROOM_MAX_ROWS: U32 := 50
  const DEFAULT_SCALE_FACTOR: U32 := 50

  const I32_MAX: int := 0x7FFF_FFFF
  /** `isize::MAX` at a 64-bit pointer width: the largest allocation, in
      bytes, that `vec!` accepts before it panics with a capacity overflow. */
  const ISIZE_MAX: int := 0x7FFF_FFFF_FFFF_FFFF

  /** The fill of a new canvas. */
  const BLACK: Rgba := Rgba(0, 0, 0, 255)
  /** The colour of grid lines. */
  const GRID_WHITE: Rgba := Rgba(255, 255, 255, 128)

  /** Canvas extent, in pixels, for `cells` cells: one `scale`-wide span per
      cell and one extra pixel for the closing grid line. */
  function Extent(cells: nat, scale: nat): (n: nat)
  {
    cells * scale + 1
  }

  /** The u32 arithmetic sizing a canvas does not overflow, and the buffer of
      4 bytes per pixel passes both the `usize` length check of
      `ImageBuffer::new` and the `isize::MAX` byte limit of the allocation. */
  predicate CanvasFits(cols: nat, rows: nat, scale: nat)
  {
    Extent(cols, scale) <= U32_MAX && Extent(rows, scale) <= U32_MAX
    && Extent(cols, scale) * Extent(rows, scale) * 4 <= ISIZE_MAX
  }

  /** A new canvas's contents: `Extent(cols) × Extent(rows)`, all opaque black. */
  function Blank(cols: nat, rows: nat, scale: nat): (r: Image)
    ensures r.width == Extent(cols, scale) && r.height == Extent(rows, scale)
  {
    var w, h := Extent(cols, scale), Extent(rows, scale);
    Raster(w, h, seq(h, y => seq(w, x => BLACK)))
  }

  /** Pixel (x, y) lies on a grid line. */
  predicate OnGridLine(x: nat, y: nat, scale: nat)
    requires scale > 0
  {
    x % scale == 0 || y % scale == 0
  }

  /** The image after drawing the grid: every pixel on a grid line turns
      translucent white, every other pixel is kept. */
  function GridOver(img: Image, scale: nat): (r: Image)
    requires scale > 0
    ensures r.width == img.width && r.height == img.height
  {
    Raster(img.width, img.height, seq(img.height, y requires 0 <= y < img.height =>
      seq(img.width, x requires 0 <= x < img.width =>
        if OnGridLine(x, y, scale) then GRID_WHITE else img.px[y][x])))
  }

  /** The u32 arithmetic of a tile origin does not overflow. */
  predicate OriginFits(col: nat, row: nat, scale: nat)
  {
    col * scale + 1 <= U32_MAX && row * scale + 1 <= U32_MAX
  }

  /** Top-left pixel of the tile in cell (col, row): one pixel past the
      cell's leading grid lines. */
  function TileOrigin(col: U32, row: U32, scale: U32): (o: (nat, nat))
    requires OriginFits(col, row, scale)
    ensures o.0 <= U32_MAX && o.1 <= U32_MAX
  {
    (col * scale + 1, row * scale + 1)
  }

  /** The tile actually overlaid: the decoded image when it is already
      `scale × scale`, a resized copy otherwise. */
  function PrepareTile(t: Image, scale: nat): (r: Image)
    ensures r.width == scale && r.height == scale
    ensures t.width == scale && t.height == scale ==> r == t
    ensures t.width != scale || t.height != scale ==> r == Resize(t, scale, scale)
  {
    if scale != t.width || scale != t.height then Resize(t, scale, scale) else t
  }

  /** Outcome of reading a tile asset: detecting its format can fail, then
      decoding can fail, or it yields an image. */
  datatype DecodeOutcome = ReaderFailed | DecodeFailed | Decoded(image: Image)

  /** Resizing `t` to `scale × scale`, which happens only when its size
      differs, allocates a new buffer of 4 bytes per pixel; it stays within
      the `isize::MAX` byte limit of the allocation. */
  predicate ResizeFits(t: Image, scale: nat)
  {
    (t.width != scale || t.height != scale) ==> scale * scale * 4 <= ISIZE_MAX
  }

  /** Placing the tile read as `src` in cell (col, row) does not panic. A
      failed read or decode returns before anything is computed; a decoded
      tile needs its resize buffer and its u32 tile origin to fit. */
  predicate TileFits(col: nat, row: nat, src: DecodeOutcome, scale: nat)
  {
    src.Decoded? ==> OriginFits(col, row, scale) && ResizeFits(src.image, scale)
  }

  /** The canvas after placing a tile: the prepared tile overlaid at the cell's
      tile origin, or the canvas unchanged when the asset did not decode. */
  function TileDrawn(img: Image, col: U32, row: U32, src: DecodeOutcome, scale: U32,
                     blend: (Rgba, Rgba) -> Rgba): (r: Image)
    requires src.Decoded? ==> OriginFits(col, row, scale)
    ensures r.width == img.width && r.height == img.height
  {
    match src
    case Decoded(t) =>
      var o := TileOrigin(col, row, scale);
      Overlaid(img, PrepareTile(t, scale), o.0, o.1, blend)
    case _ => img
  }

  /** The u32 arithmetic of a label origin does not overflow and its result
      converts to the `i32` the text drawing takes. */
  predicate LabelFits(col: nat, row: nat, scale: nat)
  {
    col * scale + 2 <= I32_MAX && row * scale + 2 <= I32_MAX
  }

  /** Top-left pixel of a number label in cell (col, row), as `i32`s. */
  function LabelOrigin(col: U32, row: U32, scale: U32): (o: (int, int))
    requires LabelFits(col, row, scale)
    ensures 2 <= o.0 <= I32_MAX && 2 <= o.1 <= I32_MAX
  {
    (col * scale + 2, row * scale + 2)
  }

  /** An RGBA8 canvas; `pixels[x, y]` is the pixel at column x, row y. Its
      dimensions are fixed when it is created. */
  class Canvas {
    const pixels: array2<Rgba>

    /** The canvas contents as an image value. */
    ghost function Snapshot(): (r: Image)
      reads pixels
      ensures r.width == pixels.Length0 && r.height == pixels.Length1
    {
      var rows := seq(pixels.Length1, y requires 0 <= y < pixels.Length1 reads pixels =>
        seq(pixels.Length0, x requires 0 <= x < pixels.Length0 reads pixels => pixels[x, y]));
      assert forall y :: 0 <= y < pixels.Length1 ==> |rows[y]| == pixels.Length0;
      Raster(pixels.Length0, pixels.Length1, rows)
    }

    /** `create_image_with_size_params`: allocate a zeroed buffer of
        `Extent(cols) × Extent(rows)` pixels, then paint every pixel opaque black. */
    constructor (cols: U32, rows: U32, scale: U32)
      requires CanvasFits(cols, rows, scale)
      ensures fresh(pixels)
      ensures pixels.Length0 == cols * scale + 1 && pixels.Length1 == rows * scale + 1
      ensures forall x, y :: 0 <= x < pixels.Length0 && 0 <= y < pixels.Length1 ==> pixels[x, y] == BLACK
      ensures Snapshot() == Blank(cols, rows, scale)
    {
      var w, h := Extent(cols, scale), Extent(rows, scale);
      pixels := new Rgba[w, h]((x, y) => TRANSPARENT);
      new;
      for y := 0 to h
        invariant forall i, j :: 0 <= i < w && 0 <= j < y ==> pixels[i, j] == BLACK
      {
        for x := 0 to w
          invariant forall i, j :: 0 <= i < w && 0 <= j < y ==> pixels[i, j] == BLACK
          invariant forall i :: 0 <= i < x ==> pixels[i, y] == BLACK
        {
          pixels[x, y] := BLACK;
        }
      }
      SnapshotIs(this, Blank(cols, rows, scale));
    }

    /** `create_image`: a canvas with the default room size and scale. */
    static method CreateDefault() returns (c: Canvas)
      ensures fresh(c.pixels)
      ensures c.Snapshot() == Blank(DEFAULT_ROOM_MAX_COLUMNS, DEFAULT_ROOM_MAX_ROWS, DEFAULT_SCALE_FACTOR)
    {
      c := new Canvas(DEFAULT_ROOM_MAX_COLUMNS, DEFAULT_ROOM_MAX_ROWS, DEFAULT_SCALE_FACTOR);
    }

    /** `draw_grid_with_scale_factor`: visit every pixel in row-major order and
        overwrite those on a grid line with translucent white. */
    method DrawGrid(scale: U32)
      requires scale > 0
      modifies pixels
      ensures Snapshot() == GridOver(old(Snapshot()), scale)
    {
      ghost var before := Snapshot();
      var w, h := pixels.Length0, pixels.Length1;
      for y := 0 to h
        invariant forall i, j :: 0 <= i < w && 0 <= j < h ==>
          pixels[i, j] == if j < y && OnGridLine(i, j, scale) then GRID_WHITE else before.px[j][i]
      {
        for x := 0 to w
          invariant forall i, j :: 0 <= i < w && 0 <= j < h ==>
            pixels[i, j] == if (j < y || (j == y && i < x)) && OnGridLine(i, j, scale) then GRID_WHITE else before.px[j][i]
        {
          if (x % scale == 0) || (y % scale == 0) {
            pixels[x, y] := GRID_WHITE;
          }
        }
      }
      SnapshotIs(this, GridOver(before, scale));
    }

    /** `draw_grid`: the grid at the default scale. */
    method DrawGridDefault()
      modifies pixels
      ensures Snapshot() == GridOver(old(Snapshot()), DEFAULT_SCALE_FACTOR)
    {
      DrawGrid(DEFAULT_SCALE_FACTOR);
    }

    /** `imageops::overlay(canvas, top, ox, oy)`: blend each pixel of `top`
        onto the canvas pixel it covers, row by row, skipping the part of
        `top` that falls past the canvas's right or bottom edge. */
    method Overlay(top: Image, ox: nat, oy: nat, blend: (Rgba, Rgba) -> Rgba)
      modifies pixels
      ensures Snapshot() == Overlaid(old(Snapshot()), top, ox, oy, blend)
    {
      ghost var before := Snapshot();
      var w, h := pixels.Length0, pixels.Length1;
      var rw := if ox < w then Min(top.width, w - ox) else 0;
      var rh := if oy < h then Min(top.height, h - oy) else 0;
      for j := 0 to rh
        invariant forall x, y :: 0 <= x < w && 0 <= y < h ==>
          pixels[x, y] == if InRect(x, y, ox, oy, rw, j) then blend(before.px[y][x], top.px[y - oy][x - ox]) else before.px[y][x]
      {
        for i := 0 to rw
          invariant forall x, y :: 0 <= x < w && 0 <= y < h ==>
            pixels[x, y] ==
              if InRect(x, y, ox, oy, rw, j) || (y == oy + j && ox <= x < ox + i)
              then blend(before.px[y][x], top.px[y - oy][x - ox]) else before.px[y][x]
        {
          pixels[ox + i, oy + j] := blend(pixels[ox + i, oy + j], top.px[j][i]);
        }
      }
      SnapshotIs(this, Overlaid(before, top, ox, oy, blend));
    }

    /** `draw_tile_img_xy`: when the asset decoded, resize it to
        `scale × scale` if its size differs and overlay it at the cell's tile
        origin; otherwise leave the canvas as it is. */
    method DrawTileImage(col: U32, row: U32, src: DecodeOutcome, scale: U32, blend: (Rgba, Rgba) -> Rgba)
      requires TileFits(col, row, src, scale)
      modifies pixels
      ensures Snapshot() == TileDrawn(old(Snapshot()), col, row, src, scale, blend)
    {
      match src
      case Decoded(t) =>
        var tile := t;
        if (scale != tile.width) || (scale != tile.height) {
          tile := Resize(tile, scale, scale);
        }
        var o := TileOrigin(col, row, scale);
        Overlay(tile, o.0, o.1, blend);
      case _ =>
    }

    /** `draw_terrain_tile_xy_with_scale_factor`. */
    method DrawTerrainTile(col: U32, row: U32, tile: Terrain, scale: U32,
                           decode: Asset -> DecodeOutcome, blend: (Rgba, Rgba) -> Rgba)
      requires TileFits(col, row, decode(TerrainAsset(tile)), scale)
      modifies pixels
      ensures Snapshot() == TileDrawn(old(Snapshot()), col, row, decode(TerrainAsset(tile)), scale, blend)
    {
      DrawTileImage(col, row, decode(TerrainAsset(tile)), scale, blend);
    }

    /** `draw_resource_tile_xy_with_scale_factor`. */
    method DrawResourceTile(col: U32, row: U32, tile: Resource, scale: U32,
                            decode: Asset -> DecodeOutcome, blend: (Rgba, Rgba) -> Rgba)
      requires TileFits(col, row, decode(ResourceAsset(tile)), scale)
      modifies pixels
      ensures Snapshot() == TileDrawn(old(Snapshot()), col, row, decode(ResourceAsset(tile)), scale, blend)
    {
      DrawTileImage(col, row, decode(ResourceAsset(tile)), scale, blend);
    }

    /** `draw_buildablestructure_tile_xy_with_scale_factor`. */
    method DrawStructureTile(col: U32, row: U32, tile: BuildableStructure, scale: U32,
                             decode: Asset -> DecodeOutcome, blend: (Rgba, Rgba) -> Rgba)
      requires TileFits(col, row, decode(StructureAsset(tile)), scale)
      modifies pixels
      ensures Snapshot() == TileDrawn(old(Snapshot()), col, row, decode(StructureAsset(tile)), scale, blend)
    {
      DrawTileImage(col, row, decode(StructureAsset(tile)), scale, blend);
    }

    /** `draw_terrain_tile_xy`, `draw_resource_tile_xy` and
        `draw_buildablestructure_tile_xy`: a tile of any kind at the default scale. */
    method DrawTileDefault(col: U32, row: U32, kind: TileKind,
                           decode: Asset -> DecodeOutcome, blend: (Rgba, Rgba) -> Rgba)
      requires TileFits(col, row, decode(AssetOf(kind)), DEFAULT_SCALE_FACTOR)
      modifies pixels
      ensures Snapshot() == TileDrawn(old(Snapshot()), col, row, decode(AssetOf(kind)), DEFAULT_SCALE_FACTOR, blend)
    {
      match kind
      case TerrainTile(t) => DrawTerrainTile(col, row, t, DEFAULT_SCALE_FACTOR, decode, blend);
      case ResourceTile(r) => DrawResourceTile(col, row, r, DEFAULT_SCALE_FACTOR, decode, blend);
      case StructureTile(s) => DrawStructureTile(col, row, s, DEFAULT_SCALE_FACTOR, decode, blend);
    }
  }

  /** A canvas whose every pixel matches `r` has `r` as its snapshot. */
  lemma SnapshotIs(c: Canvas, r: Image)
    requires r.width == c.pixels.Length0 && r.height == c.pixels.Length1
    requires forall x, y :: 0 <= x < r.width && 0 <= y < r.height ==> c.pixels[x, y] == r.px[y][x]
    ensures c.Snapshot() == r
  {
    var s := c.Snapshot();
    forall y | 0 <= y < r.height
      ensures s.px[y] == r.px[y]
    {
      assert forall x :: 0 <= x < r.width ==> s.px[y][x] == c.pixels[x, y];
    }
  }
}
