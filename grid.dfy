/** The image grid `generate_image_grid` writes (modeling/generate.py:76-78): every sample
    value is mapped to a byte, and a batch of `gridh * gridw` images in channel-first
    layout is tiled into one `(gridh * R) x (gridw * R) x C` image. */
module Grid {
  import opened Arith

  function Clip(v: real, lo: real, hi: real): real
  {
    if v < lo then lo else if v > hi then hi else v
  }

  /** `(x * 127.5 + 128).clip(0, 255).to(torch.uint8)`: the cast truncates toward zero, which on
      the clipped, non-negative value is the floor. */
  function Quantize(v: real): (q: int)
    ensures 0 <= q <= 255
    ensures q as real <= Clip(v * 127.5 + 128.0, 0.0, 255.0) < q as real + 1.0
  {
    Clip(v * 127.5 + 128.0, 0.0, 255.0).Floor
  }

  /** Values that map below 0 or above 255 saturate. */
  lemma QuantizeSaturates(v: real)
    ensures v * 127.5 + 128.0 <= 0.0 ==> Quantize(v) == 0
    ensures v * 127.5 + 128.0 >= 255.0 ==> Quantize(v) == 255
  {
  }

  /** Each byte value `q` is produced from the sample value `(q - 128) / 127.5`. */
  lemma QuantizeInverse(q: int)
    requires 0 <= q <= 255
    ensures Quantize((q as real - 128.0) / 127.5) == q
  {
    var v := (q as real - 128.0) / 127.5;
    assert v * 127.5 + 128.0 == q as real;
  }

  /** Larger sample values never give smaller bytes. */
  lemma QuantizeMonotone(u: real, v: real)
    requires u <= v
    ensures Quantize(u) <= Quantize(v)
  {
    var a, b := Clip(u * 127.5 + 128.0, 0.0, 255.0), Clip(v * 127.5 + 128.0, 0.0, 255.0);
    assert a <= b;
    assert a.Floor as real <= a < (a.Floor + 1) as real;
    assert b.Floor as real <= b < (b.Floor + 1) as real;
  }

  /** Where value `x` of row `y`, channel `ch` of image `b` sits in a flat batch of images of
      `C` channels of `R x R` values. */
  function Flat(C: nat, R: nat, b: nat, ch: nat, y: nat, x: nat): nat
  {
    ((b * C + ch) * R + y) * R + x
  }

  lemma FlatBound(n: nat, C: nat, R: nat, b: nat, ch: nat, y: nat, x: nat)
    requires b < n && ch < C && y < R && x < R
    ensures Flat(C, R, b, ch, y, x) < n * C * R * R
  {
    IndexBound(b, n, ch, C);
    IndexBound(b * C + ch, n * C, y, R);
    IndexBound((b * C + ch) * R + y, n * C * R, x, R);
  }

  /** The batch image shown in grid cell `(r / R, c / R)`. */
  function Tile(gridw: nat, R: nat, r: nat, c: nat): nat
    requires R > 0
  {
    (r / R) * gridw + c / R
  }

  lemma TileBound(gridw: nat, gridh: nat, R: nat, r: nat, c: nat)
    requires R > 0 && r < gridh * R && c < gridw * R
    ensures Tile(gridw, R, r, c) < gridh * gridw
  {
    DivBound(r, R, gridh);
    DivBound(c, R, gridw);
    IndexBound(r / R, gridh, c / R, gridw);
  }

  /** `value at (r, c, ch)` of the grid. */
  function GridValue(pix: seq<int>, gridw: nat, gridh: nat, C: nat, R: nat, r: nat, c: nat, ch: nat): int
    requires |pix| == gridh * gridw * C * R * R
    requires r < gridh * R && c < gridw * R && ch < C
  {
    assert R > 0;
    TileBound(gridw, gridh, R, r, c);
    FlatBound(gridh * gridw, C, R, Tile(gridw, R, r, c), ch, r % R, c % R);
    pix[Flat(C, R, Tile(gridw, R, r, c), ch, r % R, c % R)]
  }

  /** `image.reshape(gridh, gridw, C, R, R).permute(0, 3, 1, 4, 2).reshape(gridh * R, gridw * R, C)`
      on a flat batch: rows, then columns, then channels. */
  function TileGrid(pix: seq<int>, gridw: nat, gridh: nat, C: nat, R: nat): (g: seq<seq<seq<int>>>)
    requires |pix| == gridh * gridw * C * R * R
    ensures |g| == gridh * R
    ensures forall r :: 0 <= r < |g| ==> |g[r]| == gridw * R
    ensures forall r, c :: 0 <= r < |g| && 0 <= c < |g[r]| ==> |g[r][c]| == C
  {
    seq(gridh * R, (r: int) requires 0 <= r < gridh * R =>
      seq(gridw * R, (c: int) requires 0 <= c < gridw * R =>
        seq(C, (ch: int) requires 0 <= ch < C => GridValue(pix, gridw, gridh, C, R, r, c, ch))))
  }

  /** Grid value `(r, c, ch)` is value `(ch, r % R, c % R)` of batch image
      `(r / R) * gridw + c / R`. */
  lemma TileGridReads(pix: seq<int>, gridw: nat, gridh: nat, C: nat, R: nat, r: nat, c: nat, ch: nat)
    requires |pix| == gridh * gridw * C * R * R
    requires r < gridh * R && c < gridw * R && ch < C
    ensures R > 0 && Tile(gridw, R, r, c) < gridh * gridw
    ensures Flat(C, R, Tile(gridw, R, r, c), ch, r % R, c % R) < |pix|
    ensures TileGrid(pix, gridw, gridh, C, R)[r][c][ch] == pix[Flat(C, R, Tile(gridw, R, r, c), ch, r % R, c % R)]
  {
    assert R > 0;
    TileBound(gridw, gridh, R, r, c);
    FlatBound(gridh * gridw, C, R, Tile(gridw, R, r, c), ch, r % R, c % R);
    var g := TileGrid(pix, gridw, gridh, C, R);
    assert g[r][c][ch] == GridValue(pix, gridw, gridh, C, R, r, c, ch);
  }

  /** Every value of every batch image appears in the grid: image `gr * gridw + gc` fills the
      `R x R` cell in grid row `gr` and grid column `gc`, with its own rows and columns in
      order. */
  lemma TileGridPlacesEveryPixel(pix: seq<int>, gridw: nat, gridh: nat, C: nat, R: nat, gr: nat, gc: nat, ch: nat, y: nat, x: nat)
    requires |pix| == gridh * gridw * C * R * R
    requires gr < gridh && gc < gridw && ch < C && y < R && x < R
    ensures gr * R + y < gridh * R && gc * R + x < gridw * R
    ensures gr * gridw + gc < gridh * gridw && Flat(C, R, gr * gridw + gc, ch, y, x) < |pix|
    ensures TileGrid(pix, gridw, gridh, C, R)[gr * R + y][gc * R + x][ch] == pix[Flat(C, R, gr * gridw + gc, ch, y, x)]
  {
    var b := gr * gridw + gc;
    IndexBound(gr, gridh, gc, gridw);
    FlatBound(gridh * gridw, C, R, b, ch, y, x);
    var r, c := gr * R + y, gc * R + x;
    IndexBound(gr, gridh, y, R);
    IndexBound(gc, gridw, x, R);
    DivModUnique(r, R, gr, y);
    DivModUnique(c, R, gc, x);
    assert Tile(gridw, R, r, c) == b;
    TileGridReads(pix, gridw, gridh, C, R, r, c, ch);
  }
}
