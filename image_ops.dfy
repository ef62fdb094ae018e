/** The parts of the `image` crate the renderer relies on, as values: the
    RGBA8 pixel, an image buffer, nearest-neighbour resizing
    (`imageops::resize` with `FilterType::Nearest`) and the pixel-placement
    rule of `imageops::overlay`. The alpha blend of one pixel over another is
    left uninterpreted: every operation that blends takes it as a parameter. */
module ImageOps {

  const U32_MAX: int := 0xFFFF_FFFF

  /** One 8-bit colour channel. */
  type Byte = x: int | 0 <= x < 256

  /** A Rust `u32`. */
  type U32 = x: int | 0 <= x <= U32_MAX

  /** `image::Rgba<u8>`. */
  datatype Rgba = Rgba(r: Byte, g: Byte, b: Byte, a: Byte)

  /** The all-zero pixel a new `ImageBuffer` holds. */
  const TRANSPARENT: Rgba := Rgba(0, 0, 0, 0)

  /** An image buffer as a value, row-major: `px[y][x]` is the pixel at (x, y). */
  datatype Raster = Raster(width: nat, height: nat, px: seq<seq<Rgba>>)
  {
    /** Every row is `width` pixels and there are `height` rows. */
    predicate Wf()
    {
      |px| == height && forall y :: 0 <= y < |px| ==> |px[y]| == width
    }
  }

  /** A well-formed raster: what `ImageBuffer` guarantees of its contents. */
  type Image = r: Raster | r.Wf() witness Raster(0, 0, [])

  /** Pixel (x, y) lies in the w × h rectangle whose top-left corner is (ox, oy). */
  predicate InRect(x: int, y: int, ox: int, oy: int, w: int, h: int)
  {
    ox <= x < ox + w && oy <= y < oy + h
  }

  function Min(a: int, b: int): (m: int)
    ensures m <= a && m <= b && (m == a || m == b)
  {
    if a <= b then a else b
  }

  /** Source index sampled for destination index `i` when `n` destination
      pixels are drawn from `m` source pixels: the source pixel under the
      centre of destination pixel `i`, floor((i + 1/2) * m / n). */
  function NearestIndex(i: nat, n: nat, m: nat): (k: nat)
    requires i < n && 0 < m
    ensures k < m
  {
    NearestIndexBound(i, n, m);
    ((2 * i + 1) * m) / (2 * n)
  }

  lemma NearestIndexBound(i: nat, n: nat, m: nat)
    requires i < n && 0 < m
    ensures ((2 * i + 1) * m) / (2 * n) < m
  {
    var p, d := (2 * i + 1) * m, 2 * n;
    MulMonotone(2 * i + 1, 2 * n - 1, m);
    assert d * m == (2 * n - 1) * m + m;
    assert p < d * m;
    DivBelow(p, d, m);
  }

  lemma MulMonotone(a: nat, b: nat, m: nat)
    requires a <= b
    ensures a * m <= b * m
  {
    assert b * m == a * m + (b - a) * m;
  }

  lemma DivBelow(p: nat, d: nat, m: nat)
    requires 0 < d && p < d * m
    ensures p / d < m
  {
  }

  /** `imageops::resize(src, w, h, FilterType::Nearest)`: a `w × h` image whose
      every pixel is copied from one pixel of `src` (transparent when `src` has
      no pixel to copy). */
  function Resize(src: Image, w: nat, h: nat): (r: Image)
    ensures r.width == w && r.height == h
  {
    var rows := seq(h, y requires 0 <= y < h =>
      seq(w, x requires 0 <= x < w =>
        if src.width == 0 || src.height == 0 then TRANSPARENT
        else src.px[NearestIndex(y, h, src.height)][NearestIndex(x, w, src.width)]));
    assert forall y :: 0 <= y < h ==> |rows[y]| == w;
    Raster(w, h, rows)
  }

  /** What `imageops::overlay(bottom, top, ox, oy)` leaves in `bottom`: each
      pixel covered by `top` becomes `blend(bottom pixel, top pixel)`; every
      other pixel keeps its value, and the part of `top` that falls past the
      right or bottom edge of `bottom` is dropped. */
  function Overlaid(bottom: Image, top: Image, ox: nat, oy: nat, blend: (Rgba, Rgba) -> Rgba): (r: Image)
    ensures r.width == bottom.width && r.height == bottom.height
  {
    Raster(bottom.width, bottom.height, seq(bottom.height, y requires 0 <= y < bottom.height =>
      seq(bottom.width, x requires 0 <= x < bottom.width =>
        if InRect(x, y, ox, oy, top.width, top.height)
        then blend(bottom.px[y][x], top.px[y - oy][x - ox])
        else bottom.px[y][x])))
  }
}
