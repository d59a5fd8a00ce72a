/**
 * From pixels to the complex plane: the visible viewport (`get_viewport`),
 * the plane point of a pixel, and the choice of orbit seed and constant for
 * the two fractal families. Numbers are exact reals.
 */
module Plane {
  import opened Escape

  datatype SetKind = Mandelbrot | Julia

  /** The fractal family a toggle switches to. */
  function Toggled(k: SetKind): (r: SetKind)
    ensures r != k
  {
    match k
    case Mandelbrot => Julia
    case Julia => Mandelbrot
  }

  /** The visible rectangle: its width and height and its top-left corner. */
  datatype Viewport = Viewport(vw: real, vh: real, left: real, top: real)

  /** Base horizontal span of the plane at zoom 1. */
  const BaseSpan: real := 3.5

  /**
   * The viewport of a `width` by `height` pixel grid centred on
   * `(centerX, centerY)` at zoom `scale`: the horizontal span shrinks with the
   * zoom, the vertical one follows the aspect ratio, and the centre sits in the
   * middle of both.
   */
  function GetViewport(centerX: real, centerY: real, scale: real, width: nat, height: nat): (v: Viewport)
    requires scale != 0.0
    requires width > 0 && height > 0
    ensures v.vw * scale == BaseSpan
    ensures v.vh * width as real == v.vw * height as real
    ensures v.left + v.vw / 2.0 == centerX
    ensures v.top + v.vh / 2.0 == centerY
  {
    var aspect := width as real / height as real;
    var vw := BaseSpan / scale;
    var vh := vw / aspect;
    assert vh * width as real == vw * height as real by {
      assert vh * aspect == vw;
    }
    Viewport(vw, vh, centerX - vw / 2.0, centerY - vh / 2.0)
  }

  /** The plane point of pixel `(x, y)` of a `w` by `h` grid laid over `v`. */
  function PlanePoint(v: Viewport, w: nat, h: nat, x: nat, y: nat): (p: Complex)
    requires w > 0 && h > 0
  {
    Complex(v.left + x as real * v.vw / w as real, v.top + y as real * v.vh / h as real)
  }

  /** Neighbouring pixels are one pixel span apart, in both directions. */
  lemma UniformSpacing(v: Viewport, w: nat, h: nat, x: nat, y: nat)
    requires w > 0 && h > 0
    ensures PlanePoint(v, w, h, x + 1, y).re - PlanePoint(v, w, h, x, y).re == v.vw / w as real
    ensures PlanePoint(v, w, h, x, y + 1).im - PlanePoint(v, w, h, x, y).im == v.vh / h as real
    ensures PlanePoint(v, w, h, x + 1, y).im == PlanePoint(v, w, h, x, y).im
    ensures PlanePoint(v, w, h, x, y + 1).re == PlanePoint(v, w, h, x, y).re
  {
    var wr, hr := w as real, h as real;
    assert (x + 1) as real * v.vw / wr == x as real * v.vw / wr + v.vw / wr;
    assert (y + 1) as real * v.vh / hr == y as real * v.vh / hr + v.vh / hr;
  }

  /** Pixels are square: the horizontal and vertical pixel spans of a viewport agree. */
  lemma SquarePixels(centerX: real, centerY: real, scale: real, w: nat, h: nat)
    requires scale != 0.0
    requires w > 0 && h > 0
    ensures var v := GetViewport(centerX, centerY, scale, w, h); v.vw / w as real == v.vh / h as real
  {
    var v := GetViewport(centerX, centerY, scale, w, h);
    var wr, hr := w as real, h as real;
    assert v.vh * wr == v.vw * hr;
    assert v.vw / wr == (v.vw * hr) / (wr * hr);
    assert v.vh / hr == (v.vh * wr) / (wr * hr);
  }

  /**
   * Pixel `(0, 0)` sits on the top-left corner, and the grid point one past the
   * last pixel on the bottom-right corner, half a span beyond the centre.
   */
  lemma Corners(centerX: real, centerY: real, scale: real, w: nat, h: nat)
    requires scale != 0.0
    requires w > 0 && h > 0
    ensures var v := GetViewport(centerX, centerY, scale, w, h);
      && PlanePoint(v, w, h, 0, 0) == Complex(v.left, v.top)
      && PlanePoint(v, w, h, w, h) == Complex(centerX + v.vw / 2.0, centerY + v.vh / 2.0)
  {
    var v := GetViewport(centerX, centerY, scale, w, h);
    assert w as real * v.vw / w as real == v.vw;
    assert h as real * v.vh / h as real == v.vh;
  }

  /**
   * The orbit seed and constant of a plane point: a Mandelbrot pixel starts at
   * zero with the point as constant, a Julia pixel starts at the point with the
   * set's constant.
   */
  function Seed(kind: SetKind, p: Complex, julia: Complex): (zc: (Complex, Complex)) {
    match kind
    case Mandelbrot => (Zero, p)
    case Julia => (p, julia)
  }

  /** The escape time of a pixel of the given family. */
  function PixelEscape(kind: SetKind, p: Complex, julia: Complex, m: nat): (n: nat)
    ensures n <= m
    ensures kind == Mandelbrot && m > 0 ==> n > 0
    ensures kind == Julia && Escaped(p) ==> n == 0
  {
    var (z0, c) := Seed(kind, p, julia);
    EscapeTime(z0, c, m)
  }

  /**
   * A Mandelbrot pixel at `p` escapes one step later than the Julia pixel at
   * `p` of the Julia set whose constant is `p` itself.
   */
  lemma {:induction false} MandelbrotIsShiftedJulia(p: Complex, m: nat)
    ensures PixelEscape(Mandelbrot, p, p, m + 1) == 1 + PixelEscape(Julia, p, p, m)
  {
    MandelbrotShift(p, m);
  }

  /** The worked example: the default view on a 4 by 8 grid. */
  lemma DefaultViewExample()
    ensures GetViewport(-0.5, 0.0, 1.0, 4, 8) == Viewport(3.5, 7.0, -2.25, -3.5)
    ensures PlanePoint(GetViewport(-0.5, 0.0, 1.0, 4, 8), 4, 8, 0, 0) == Complex(-2.25, -3.5)
  {
  }
}
