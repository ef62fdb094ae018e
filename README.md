# Pixel canvas of screeps-local-visuals, in Dafny

This project models the canvas logic of `src/render.rs`, which renders a
Screeps room. It allocates an RGBA8 canvas for a grid of `cols × rows` cells
of `scale × scale` pixels. The canvas is `cols*scale+1` by `rows*scale+1`,
the extra pixel holding the closing grid line, and starts filled opaque
black. The renderer then changes it in place: it draws translucent white
grid lines at every multiple of `scale`, overlays terrain, resource and
structure tiles at cell origins `(col*scale+1, row*scale+1)`, resizing a tile
first when its size differs from `scale`, and computes where a number label
goes, `(col*scale+2, row*scale+2)`.

Files:

- `image_ops.dfy` (module `ImageOps`): the `image` crate's pixel type, image
  buffers as values (`Image`, row-major `px[y][x]`), nearest-neighbour
  `Resize` and `Overlaid`, the pixel placement of `imageops::overlay`.
- `tiles.dfy` (module `Tiles`): the `Terrain`, `Resource` and
  `BuildableStructure` enums and the total mapping from each variant to the
  embedded image asset it draws.
- `render.dfy` (module `Render`): the class `Canvas`. It holds
  `pixels: array2<Rgba>`, indexed `[x, y]`, and its methods update it in
  place with loops. Beside it are the pure functions that specify the
  methods: `Blank`, `GridOver`, `PrepareTile`, `TileDrawn`, `TileOrigin` and
  `LabelOrigin`. The constructor's postcondition says the ghost `Snapshot()`
  of the canvas equals `Blank` of its arguments. `Overlay`'s says
  `Snapshot()` equals `ImageOps.Overlaid` of the old snapshot. Each drawing
  method's says `Snapshot()` equals `GridOver` or `TileDrawn` of the old
  snapshot.
- `render_proofs.dfy` (module `RenderProofs`): lemmas about those functions.

Two external pieces are parameters, and a third is not modelled:

- The alpha blend of one pixel over another, done by `image` in floating
  point, is an uninterpreted `blend: (Rgba, Rgba) -> Rgba`.
- Decoding an asset is `decode: Asset -> DecodeOutcome`. A `DecodeOutcome`
  is a format-detection failure, a decode failure, or an image.
- Glyph rasterisation is not modelled. Only the label origin is.

Rust's `u32` arithmetic panics on overflow in a debug build. The
`try_into().unwrap()` to `i32` for text panics when the value does not fit.
Both become preconditions: `CanvasFits`, `OriginFits` and `LabelFits`.
Allocating an image buffer of more than `isize::MAX` bytes panics too. That
limit is part of `CanvasFits` for the canvas and of `ResizeFits` for the
resized tile. Tile placement requires `TileFits`, which demands `OriginFits`
and `ResizeFits` only of a tile that decoded: a failed read or decode returns
before either is computed.
`draw_grid_with_scale_factor` panics on `% 0`, so `DrawGrid` requires
`scale > 0`. The tile origin is converted to the coordinate type of
`imageops::overlay`, which is `u32` or `i64` depending on the `image`
release. Neither conversion fails for a `u32`, so tile placement adds no
`i32` bound.

## Model

| member | source | states |
|---|---|---|
| `Render.Canvas.constructor` | src/render.rs:60-71 | the canvas is `cols*scale+1` wide and `rows*scale+1` high, every pixel is (0,0,0,255), and its snapshot is `Blank(cols, rows, scale)`; it requires that the u32 size arithmetic does not overflow and that the buffer of 4 bytes per pixel stays within `isize::MAX` bytes |
| `Render.Canvas.CreateDefault` | src/render.rs:56-58 | a fresh canvas for the default 50 × 50 room at scale 50 |
| `Render.Blank` | src/render.rs:61 | a new canvas is `Extent(cols) × Extent(rows)`, where `Extent(n) = n*scale+1` |
| `Render.Canvas.DrawGrid` | src/render.rs:77-86 | requires `scale > 0`; afterwards the canvas equals `GridOver(old canvas, scale)` |
| `Render.Canvas.DrawGridDefault` | src/render.rs:73-75 | the grid at the default scale 50 |
| `Render.GridOver` | src/render.rs:78-85 | drawing the grid keeps the canvas dimensions |
| `RenderProofs.GridOverPixel` | src/render.rs:79-84 | after the grid, a pixel with `x % scale == 0` or `y % scale == 0` is (255,255,255,128) and every other pixel is unchanged; a pixel is grid white iff it is on a line or was grid white before |
| `RenderProofs.GridIdempotent` | src/render.rs:78-85 | drawing the grid twice gives the same canvas as drawing it once |
| `RenderProofs.GridColumnAtBoundary` | src/render.rs:79 | on a canvas of `cols` cells, every boundary column `k*scale` for `k <= cols`, both edges included, is on the canvas and grid white in every row |
| `RenderProofs.GridRowAtBoundary` | src/render.rs:79 | every boundary row `k*scale` for `k <= rows` is on the canvas and grid white in every column |
| `ImageOps.Resize` | src/render.rs:175 | a nearest-neighbour resize to `w × h` yields exactly a `w × h` image |
| `ImageOps.NearestIndex` | src/render.rs:175 | the source pixel sampled for each destination pixel lies within the source |
| `Render.PrepareTile` | src/render.rs:172-176 | the tile overlaid is exactly `scale × scale`; it is the decoded tile itself when that is already `scale × scale` and its resize otherwise |
| `Render.TileOrigin` | src/render.rs:178-179 | the tile origin `(col*scale+1, row*scale+1)` computed in u32 stays within u32 |
| `ImageOps.Overlaid` | src/render.rs:181 | overlaying keeps the bottom image's dimensions; each covered pixel becomes `blend(bottom, top)`, and the part of `top` past the edge is dropped |
| `Render.Canvas.Overlay` | src/render.rs:181 | the in-place overlay loop leaves the canvas equal to `Overlaid(old canvas, top, ox, oy, blend)` |
| `Render.TileDrawn` | src/render.rs:165-184 | placing a tile keeps the canvas dimensions; the u32 origin bound is needed only for a decoded tile |
| `Render.Canvas.DrawTileImage` | src/render.rs:165-184 | afterwards the canvas equals `TileDrawn(old canvas, col, row, src, scale, blend)`, which is the prepared tile overlaid at the tile origin, or the old canvas when reading or decoding failed; it requires `TileFits`, so any cell is accepted when the asset does not decode |
| `Render.Canvas.DrawTerrainTile` | src/render.rs:108-116 | draws the tile decoded from `TerrainAsset(tile)` |
| `Render.Canvas.DrawResourceTile` | src/render.rs:122-135 | draws the tile decoded from `ResourceAsset(tile)` |
| `Render.Canvas.DrawStructureTile` | src/render.rs:141-163 | draws the tile decoded from `StructureAsset(tile)` |
| `Render.Canvas.DrawTileDefault` | src/render.rs:104-106 | a tile of any kind at the default scale; this row also stands for the resource and structure wrappers at lines 118-120 and 137-139 |
| `RenderProofs.TileDrawnFailure` | src/render.rs:167-169 | when the reader or the decode fails, the canvas is unchanged, for every cell and scale |
| `RenderProofs.TileFitsInCanvas` | src/render.rs:172-179 | on a canvas that `CanvasFits` allows, a tile in any cell of the room has a u32 origin and, when resized, a buffer within `isize::MAX` bytes |
| `RenderProofs.TileRegionInCanvas` | src/render.rs:178-181 | for `col < cols` and `row < rows`, the `scale × scale` tile square starts at x, y >= 1 and ends at `(col+1)*scale`, which is at most `cols*scale`, the last canvas column (likewise for rows) |
| `RenderProofs.TileDrawnFrame` | src/render.rs:178-181 | a pixel that placing a tile changes belongs to a decoded tile and lies inside the square `[col*scale+1, col*scale+scale] × [row*scale+1, row*scale+scale]` |
| `RenderProofs.TileDrawnInside` | src/render.rs:172-181 | for an in-range cell, every pixel (i, j) of the prepared tile is blended over canvas pixel `origin + (i, j)`, with nothing clipped |
| `RenderProofs.TileSparesLeadingGridLines` | src/render.rs:178-179 | a tile never changes its cell's leading grid column `col*scale` or leading grid row `row*scale` |
| `RenderProofs.TileCoversTrailingGridColumn` | src/render.rs:178-181 | a tile's last column lands on the trailing grid column `(col+1)*scale`, a multiple of `scale`, so tiles overwrite their right grid line |
| `RenderProofs.TileCoversTrailingGridRow` | src/render.rs:178-181 | a tile's last row lands on the trailing grid row `(row+1)*scale`, a multiple of `scale`, so tiles overwrite their bottom grid line |
| `RenderProofs.TileDrawnCommute` | src/render.rs:165-184 | tiles placed in two different cells give the same canvas in either order |
| `RenderProofs.TwoTerrainTiles` | src/render.rs:108-116 | a 2 × 2 canvas at scale 50 is 101 × 101; with a plain tile at (0,0) and a wall tile at (1,1), the undrawn cells stay black, and each tile that decodes is blended over black in its own cell |
| `Render.LabelOrigin` | src/render.rs:92-96 | the label origin `(col*scale+2, row*scale+2)` is within `2..i32::MAX`, the range that `try_into` accepts |
| `RenderProofs.LabelOriginInCell` | src/render.rs:93-94 | the label origin is the tile origin shifted by (1, 1); for scale >= 2 it lies in the cell's tile square and on the canvas |
| `Tiles.TerrainAsset` | src/render.rs:109-113 | each terrain variant selects a terrain asset |
| `Tiles.ResourceAsset` | src/render.rs:123-132 | each resource variant selects a resource asset |
| `Tiles.StructureAsset` | src/render.rs:142-160 | each structure variant selects a structure asset, outside the terrain and resource assets |
| `Tiles.KindOfAssetOf` | src/render.rs:109-160 | the kind is recovered from the asset it selects |
| `Tiles.AssetOfKindOf` | src/render.rs:109-160 | every asset the three matches name is selected by some kind |
| `Tiles.AssetOfInjective` | src/render.rs:109-160 | two kinds select the same asset iff they are the same kind, across all three categories |

## Left out

- Image decoding is a parameter. This covers `Reader::with_guessed_format`, `decode` and `to_rgba8`, as well as the embedded asset bytes and the `lazy_static` cache of `src/assets_data.rs`. The cache is a one-time initialisation concern with no in-place canvas logic.
- `src/render.rs` names `*_IMG_DATA` and `FREE_MONO_FONT_DATA`. `src/assets_data.rs` defines `*_IMG` and `FREE_MONO_FONT` instead. The model refers only to abstract `Asset` identifiers, so the mismatch does not matter here.
- `src/assets_data.rs` defines `RESOURCE_UNKNOWN_IMG` (line 57) and `STRUCTURE_UNKNOWN_IMG` (line 76). No variant of the enums at `src/render.rs:24-54` selects them, so the model has no `Unknown` kind and no asset for them.
- The pixel arithmetic of `Rgba::blend`, used by `imageops::overlay`, is floating point. It is the uninterpreted `blend` parameter.
- `ImageOps.Resize`: its body samples the source pixel under the centre of each destination pixel, in integer arithmetic. It stands in for the library's floating-point sampling and is not claimed to match it pixel for pixel. Only the size of the result is relied on. For a source with no pixels it returns transparent pixels. The library's behaviour in that case is not modelled.
- Glyph rasterisation in `draw_text_number_raw` is not modelled. That covers the rusttype font loading, whose failure panics, and `imageproc::drawing::draw_text_mut`. The calls are foreign and float-based. `draw_text_number_xy_with_scale_factor` and its default wrapper `draw_text_number_xy` are therefore modelled only by `LabelOrigin`.
- `Render.Canvas.constructor` requires, through `CanvasFits`, that the pixel buffer stays within `isize::MAX` bytes at a 64-bit pointer width, and `Render.Canvas.DrawTileImage` requires the same of the resize buffer through `ResizeFits`. On a narrower target the allocation limit is lower, and the model does not capture that limit.
- Release builds wrap u32 arithmetic around instead of panicking. The model follows debug builds, where overflow is a panic, and states it as a precondition.
- Heatmap and cost-field overlays and auto-fit centred text are not in `src/render.rs`, so nothing models them.
- A tile at a cell outside the room is not rejected. `imageops::overlay` clips it at the canvas edge, and `Overlaid` models that clipping.
