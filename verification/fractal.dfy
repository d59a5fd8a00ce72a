/**
 * The fractal widget: the view parameters, colouring of escape times, the
 * memoised colour buffer (`compute`) and the packing of that buffer into
 * half-block terminal cells (`render`).
 */
module Fractal {
  import opened Colors
  import opened Escape
  import opened Plane

  /** A palette maps an escape fraction to an RGB colour. */
  type Palette = real -> Rgb

  /** The registry holds six palettes: default, fire, rainbow, ocean, grayscale, electric. */
  const PaletteCount: nat := 6

  /** The glyph of every display cell: the upper half block. */
  const HalfBlock: char := '\U{2580}'

  /** The view parameters that decide what is drawn. */
  datatype ViewState = ViewState(
    centerX: real,
    centerY: real,
    scale: real,
    maxIterations: u32,
    currentPalette: nat,
    kind: SetKind,
    julia: Complex)

  /** A rectangle of display cells. */
  datatype Rect = Rect(x: nat, y: nat, width: nat, height: nat)

  /** One display cell: its glyph, foreground and background colours. */
  datatype Cell = Cell(symbol: string, fg: TermColor, bg: TermColor)

  /** Cell `(r, c)` (row, column) lies inside `area`. */
  predicate InArea(area: Rect, r: int, c: int) {
    area.y <= r < area.y + area.height && area.x <= c < area.x + area.width
  }

  /** A buffer whose rows all have the same length. */
  ghost predicate Rectangular(rows: seq<seq<TermColor>>) {
    forall i :: 0 <= i < |rows| ==> |rows[i]| == |rows[0]|
  }

  /**
   * The colour of an escape time: black for a point that never escaped,
   * otherwise the active palette at the fraction `n / maxIterations`.
   */
  function GetColor(v: ViewState, palettes: seq<Palette>, n: nat): (r: TermColor)
    requires v.currentPalette < |palettes|
    requires n <= v.maxIterations as nat
    ensures r == Black <==> n == v.maxIterations as nat
    ensures n < v.maxIterations as nat ==> r.Rgb?
    ensures n < v.maxIterations as nat ==>
      ColorToRgb(r) == palettes[v.currentPalette](n as real / v.maxIterations as real)
  {
    if n == v.maxIterations as nat then Black
    else
      var t := n as real / v.maxIterations as real;
      var (r, g, b) := palettes[v.currentPalette](t);
      Rgb(r, g, b)
  }

  /** Never-escaped points are black whichever palette is active. */
  lemma InteriorBlackInEveryPalette(v: ViewState, palettes: seq<Palette>, k: nat)
    requires v.currentPalette < |palettes| && k < |palettes|
    ensures GetColor(v.(currentPalette := k), palettes, v.maxIterations as nat) == Black
    ensures ColorToRgb(GetColor(v.(currentPalette := k), palettes, v.maxIterations as nat)) == BlackRgb
  {
  }

  /** The escape time of pixel `(x, y)` of a `w` by `h` grid. */
  function PixelTime(v: ViewState, w: nat, h: nat, x: nat, y: nat): (n: nat)
    requires v.scale != 0.0
    requires w > 0 && h > 0
    ensures n <= v.maxIterations as nat
  {
    var vp := GetViewport(v.centerX, v.centerY, v.scale, w, h);
    PixelEscape(v.kind, PlanePoint(vp, w, h, x, y), v.julia, v.maxIterations as nat)
  }

  /** The colour of pixel `(x, y)` of a `w` by `h` grid. */
  function Pixel(v: ViewState, palettes: seq<Palette>, w: nat, h: nat, x: nat, y: nat): (color: TermColor)
    requires v.scale != 0.0 && v.currentPalette < |palettes|
    requires w > 0 && h > 0
  {
    GetColor(v, palettes, PixelTime(v, w, h, x, y))
  }

  /** The whole `h` rows by `w` columns colour buffer of a view. */
  function FrameOf(v: ViewState, palettes: seq<Palette>, w: nat, h: nat): (rows: seq<seq<TermColor>>)
    requires v.scale != 0.0 && v.currentPalette < |palettes|
    requires w > 0 && h > 0
    ensures |rows| == h
    ensures forall y :: 0 <= y < h ==> |rows[y]| == w
  {
    seq(h, y requires 0 <= y < h => seq(w, x requires 0 <= x < w => Pixel(v, palettes, w, h, x, y)))
  }

  /** A cell of the buffer is black exactly when its pixel never escaped. */
  lemma FrameInteriorBlack(v: ViewState, palettes: seq<Palette>, w: nat, h: nat, x: nat, y: nat)
    requires v.scale != 0.0 && v.currentPalette < |palettes|
    requires w > 0 && h > 0
    requires x < w && y < h
    ensures FrameOf(v, palettes, w, h)[y][x] == Black <==> PixelTime(v, w, h, x, y) == v.maxIterations as nat
  {
  }

  /** Width and height of the exported still image. */
  const SnapshotWidth: nat := 3840
  const SnapshotHeight: nat := 2160

  /** The RGB triple the exporter writes for pixel `(x, y)` of the still image. */
  function SnapshotPixel(v: ViewState, palettes: seq<Palette>, x: nat, y: nat): (t: Rgb)
    requires v.scale != 0.0 && v.currentPalette < |palettes|
    ensures PixelTime(v, SnapshotWidth, SnapshotHeight, x, y) == v.maxIterations as nat ==> t == BlackRgb
    ensures PixelTime(v, SnapshotWidth, SnapshotHeight, x, y) < v.maxIterations as nat
            ==> t == palettes[v.currentPalette](PixelTime(v, SnapshotWidth, SnapshotHeight, x, y) as real / v.maxIterations as real)
  {
    ColorToRgb(Pixel(v, palettes, SnapshotWidth, SnapshotHeight, x, y))
  }

  /** Display column `xi` shows buffer column `(xi + 1) mod w`. */
  function RotateColumn(xi: nat, w: nat): (j: nat)
    requires w > 0
    ensures j < w
    ensures xi < w ==> j == if xi + 1 == w then 0 else xi + 1
  {
    (xi + 1) % w
  }

  /** The inverse of the column rotation. */
  function UnrotateColumn(j: nat, w: nat): (xi: nat)
    requires w > 0
    ensures xi < w
    ensures j < w ==> xi == if j == 0 then w - 1 else j - 1
  {
    (j + w - 1) % w
  }

  /** The rotation is a permutation of `0..w`: the two maps undo each other. */
  lemma RotationIsBijection(w: nat, xi: nat, j: nat)
    requires w > 0 && xi < w && j < w
    ensures UnrotateColumn(RotateColumn(xi, w), w) == xi
    ensures RotateColumn(UnrotateColumn(j, w), w) == j
  {
  }

  /** Two display columns never show the same buffer column. */
  lemma RotationInjective(w: nat, a: nat, b: nat)
    requires w > 0 && a < w && b < w
    requires RotateColumn(a, w) == RotateColumn(b, w)
    ensures a == b
  {
    RotationIsBijection(w, a, 0);
    RotationIsBijection(w, b, 0);
  }

  /**
   * Every cell of `area` in `buf` shows `frame`: cell `(xi, yi)` is the half
   * block whose foreground is pixel row `2yi` and whose background is pixel
   * row `2yi + 1` of the rotated column `RotateColumn(xi)`.
   */
  ghost predicate Shows(buf: array2<Cell>, area: Rect, frame: seq<seq<TermColor>>)
    reads buf
  {
    && area.width > 0
    && area.y + area.height <= buf.Length0 && area.x + area.width <= buf.Length1
    && |frame| == 2 * area.height
    && (forall y :: 0 <= y < |frame| ==> |frame[y]| == area.width)
    && forall yi, xi :: 0 <= yi < area.height && 0 <= xi < area.width ==>
         (buf[area.y + yi, area.x + xi]
          == Cell([HalfBlock], frame[2 * yi][RotateColumn(xi, area.width)], frame[2 * yi + 1][RotateColumn(xi, area.width)]))
  }

  class FractalWidget {
    var colors: seq<seq<TermColor>>
    var centerX: real
    var centerY: real
    var scale: real
    var maxIterations: u32
    var needRender: bool
    var palettes: seq<Palette>
    var currentPalette: nat
    var kind: SetKind
    var juliaRe: real
    var juliaIm: real

    /** The zoom is positive, the palette index is in range, the buffer is rectangular. */
    ghost predicate Valid()
      reads this
    {
      && scale > 0.0
      && |palettes| == PaletteCount
      && currentPalette < |palettes|
      && Rectangular(colors)
    }

    /** The view parameters currently held by the widget. */
    function View(): (v: ViewState)
      reads this
    {
      ViewState(centerX, centerY, scale, maxIterations, currentPalette, kind, Complex(juliaRe, juliaIm))
    }

    /** The default widget: default view on the Mandelbrot set, nothing computed yet. */
    constructor (registry: seq<Palette>)
      requires |registry| == PaletteCount
      ensures Valid()
      ensures View() == ViewState(-0.5, 0.0, 1.0, 100, 0, Mandelbrot, Complex(-0.5251993, -0.5251993))
      ensures colors == [] && needRender && palettes == registry
    {
      colors := [];
      centerX, centerY := -0.5, 0.0;
      scale := 1.0;
      maxIterations := 100;
      needRender := true;
      palettes := registry;
      currentPalette := 0;
      kind := Mandelbrot;
      juliaRe, juliaIm := -0.5251993, -0.5251993;
    }

    /** The buffer can be reused for a `w` by `h` frame. */
    ghost predicate CacheHit(w: nat, h: nat)
      reads this
    {
      |colors| == h && h > 0 && |colors[0]| == w && !needRender
    }

    /**
     * Rebuilds the colour buffer for `area` at double vertical resolution,
     * unless the buffer already has those dimensions and no redraw was asked for.
     */
    method Compute(area: Rect)
      requires Valid()
      requires area.width > 0 && area.height > 0
      modifies this`colors
      ensures Valid()
      ensures old(CacheHit(area.width, 2 * area.height)) ==> colors == old(colors)
      ensures !old(CacheHit(area.width, 2 * area.height))
              ==> colors == FrameOf(View(), palettes, area.width, 2 * area.height)
      ensures |colors| == 2 * area.height
      ensures forall y :: 0 <= y < |colors| ==> |colors[y]| == area.width
    {
      var w, h := area.width, area.height * 2;
      if |colors| == h && |colors[0]| == w && !needRender {
        return;
      }

      var vp := GetViewport(centerX, centerY, scale, w, h);
      ghost var frame := FrameOf(View(), palettes, w, h);
      var rows := [];
      var y := 0;
      while y < h
        invariant Valid() && y <= h
        invariant rows == frame[..y]
      {
        var row := ComputeRow(vp, w, h, y);
        rows := rows + [row];
        y := y + 1;
      }
      colors := rows;
    }

    /**
     * Computes row `y` of the colour buffer of the current view on a `w` by
     * `h` grid whose viewport is `vp`: one escape-time run per column.
     */
    method ComputeRow(vp: Viewport, w: nat, h: nat, y: nat) returns (row: seq<TermColor>)
      requires Valid()
      requires w > 0 && h > 0 && y < h
      requires vp == GetViewport(centerX, centerY, scale, w, h)
      ensures row == FrameOf(View(), palettes, w, h)[y]
    {
      ghost var frame := FrameOf(View(), palettes, w, h);
      row := [];
      var x := 0;
      while x < w
        invariant x <= w
        invariant row == frame[y][..x]
      {
        var (z0, c) := Seed(kind, PlanePoint(vp, w, h, x, y), Complex(juliaRe, juliaIm));
        var iterations := IteratePoint(z0.re, z0.im, c.re, c.im, maxIterations);
        assert iterations as nat == PixelTime(View(), w, h, x, y) by {
          assert Complex(z0.re, z0.im) == z0 && Complex(c.re, c.im) == c;
        }
        row := row + [GetColor(View(), palettes, iterations as nat)];
        x := x + 1;
      }
    }

    /**
     * Writes display column `xi` of `area` in `buf`: the cell of row `yi` is
     * the half block of buffer rows `2yi` (foreground) and `2yi + 1`
     * (background) at column `col`.
     */
    method PaintColumn(area: Rect, buf: array2<Cell>, xi: nat, col: nat)
      requires area.y + area.height <= buf.Length0 && area.x + xi < buf.Length1
      requires |colors| == 2 * area.height
      requires forall y :: 0 <= y < |colors| ==> col < |colors[y]|
      modifies buf
      ensures forall yi :: 0 <= yi < area.height ==>
        buf[area.y + yi, area.x + xi] == Cell([HalfBlock], colors[2 * yi][col], colors[2 * yi + 1][col])
      ensures forall r, c :: 0 <= r < buf.Length0 && 0 <= c < buf.Length1 && !InArea(Rect(area.x + xi, area.y, 1, area.height), r, c) ==>
        buf[r, c] == old(buf[r, c])
    {
      var yi := 0;
      while yi < area.height
        invariant yi <= area.height
        invariant forall yj :: 0 <= yj < yi ==>
          buf[area.y + yj, area.x + xi] == Cell([HalfBlock], colors[2 * yj][col], colors[2 * yj + 1][col])
        invariant forall r, c :: 0 <= r < buf.Length0 && 0 <= c < buf.Length1 && !InArea(Rect(area.x + xi, area.y, 1, yi), r, c) ==>
          buf[r, c] == old(buf[r, c])
      {
        var fg := colors[yi * 2][col];
        var bg := colors[yi * 2 + 1][col];
        buf[area.y + yi, area.x + xi] := Cell([HalfBlock], fg, bg);
        yi := yi + 1;
      }
    }

    /**
     * Writes every cell of `area` in `buf` from the colour buffer, column by
     * column: display column `xi` shows buffer column `(xi + 1) mod width`.
     */
    method Paint(area: Rect, buf: array2<Cell>)
      requires area.width > 0
      requires area.y + area.height <= buf.Length0 && area.x + area.width <= buf.Length1
      requires |colors| == 2 * area.height
      requires forall y :: 0 <= y < |colors| ==> |colors[y]| == area.width
      modifies buf
      ensures Shows(buf, area, colors)
      ensures forall r, c :: 0 <= r < buf.Length0 && 0 <= c < buf.Length1 && !InArea(area, r, c) ==>
        buf[r, c] == old(buf[r, c])
    {
      var xi := 0;
      while xi < area.width
        invariant xi <= area.width
        invariant forall yi, k :: 0 <= yi < area.height && 0 <= k < xi ==>
          (buf[area.y + yi, area.x + k]
           == Cell([HalfBlock], colors[2 * yi][RotateColumn(k, area.width)], colors[2 * yi + 1][RotateColumn(k, area.width)]))
        invariant forall r, c :: 0 <= r < buf.Length0 && 0 <= c < buf.Length1 && !InArea(area.(width := xi), r, c) ==>
          buf[r, c] == old(buf[r, c])
      {
        var col := (xi + 1) % area.width;
        PaintColumn(area, buf, xi, col);
        forall yi, k | 0 <= yi < area.height && 0 <= k <= xi
          ensures buf[area.y + yi, area.x + k]
                  == Cell([HalfBlock], colors[2 * yi][RotateColumn(k, area.width)], colors[2 * yi + 1][RotateColumn(k, area.width)])
        {
          if k < xi {
            assert !InArea(Rect(area.x + xi, area.y, 1, area.height), area.y + yi, area.x + k);
          }
        }
        xi := xi + 1;
      }
    }

    /**
     * Computes the buffer for `area`, then writes every cell of `area` in `buf`
     * as a half block whose foreground is the upper pixel and whose background
     * is the lower pixel of the rotated buffer column.
     */
    method Render(area: Rect, buf: array2<Cell>)
      requires Valid()
      requires area.width > 0 && area.height > 0
      requires area.y + area.height <= buf.Length0 && area.x + area.width <= buf.Length1
      modifies this`colors, buf
      ensures Valid()
      ensures old(CacheHit(area.width, 2 * area.height)) ==> colors == old(colors)
      ensures !old(CacheHit(area.width, 2 * area.height))
              ==> colors == FrameOf(View(), palettes, area.width, 2 * area.height)
      ensures Shows(buf, area, colors)
      ensures forall r, c :: 0 <= r < buf.Length0 && 0 <= c < buf.Length1 && !InArea(area, r, c) ==>
        buf[r, c] == old(buf[r, c])
    {
      Compute(area);
      Paint(area, buf);
    }
  }
}
