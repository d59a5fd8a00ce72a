/**
 * Terminal colours and their conversion to 8-bit RGB triples
 * (the `color_to_rgb` helper used by the screenshot exporter).
 */
module Colors {

  /** An unsigned 8-bit channel value (`u8`). */
  newtype byte = x: int | 0 <= x < 256

  /** An RGB triple, 8 bits per channel. */
  type Rgb = (byte, byte, byte)

  const BlackRgb: Rgb := (0, 0, 0)

  datatype Option<T> = None | Some(value: T)

  /** The closed enumeration of terminal colours the display collaborator accepts. */
  datatype TermColor =
    | Reset
    | Black | Red | Green | Yellow | Blue | Magenta | Cyan | Gray
    | DarkGray | LightRed | LightGreen | LightYellow | LightBlue | LightMagenta | LightCyan | White
    | Rgb(r: byte, g: byte, b: byte)
    | Indexed(index: byte)

  /** The sixteen named colours, which have a fixed triple of their own. */
  predicate IsNamed(c: TermColor) {
    !(c.Reset? || c.Rgb? || c.Indexed?)
  }

  /**
   * Converts any terminal colour to an RGB triple: the named colours to their
   * fixed triple, an RGB colour to its own channels, everything else to black.
   */
  function ColorToRgb(c: TermColor): (t: Rgb)
    ensures c.Rgb? ==> t == (c.r, c.g, c.b)
    ensures c.Reset? || c.Indexed? ==> t == BlackRgb
  {
    match c
    case Black => (0, 0, 0)
    case Red => (255, 0, 0)
    case Green => (0, 255, 0)
    case Yellow => (255, 255, 0)
    case Blue => (0, 0, 255)
    case Magenta => (255, 0, 255)
    case Cyan => (0, 255, 255)
    case Gray => (128, 128, 128)
    case DarkGray => (64, 64, 64)
    case LightRed => (255, 128, 128)
    case LightGreen => (128, 255, 128)
    case LightYellow => (255, 255, 128)
    case LightBlue => (128, 128, 255)
    case LightMagenta => (255, 128, 255)
    case LightCyan => (128, 255, 255)
    case White => (255, 255, 255)
    case Rgb(r, g, b) => (r, g, b)
    case _ => (0, 0, 0)
  }

  /**
   * The named colour whose fixed triple is `t`, if there is one: the inverse of
   * ColorToRgb on the named colours.
   */
  function NamedFromRgb(t: Rgb): (r: Option<TermColor>)
    ensures r.Some? ==> IsNamed(r.value) && ColorToRgb(r.value) == t
  {
    if t == (0, 0, 0) then Some(Black)
    else if t == (255, 0, 0) then Some(Red)
    else if t == (0, 255, 0) then Some(Green)
    else if t == (255, 255, 0) then Some(Yellow)
    else if t == (0, 0, 255) then Some(Blue)
    else if t == (255, 0, 255) then Some(Magenta)
    else if t == (0, 255, 255) then Some(Cyan)
    else if t == (128, 128, 128) then Some(Gray)
    else if t == (64, 64, 64) then Some(DarkGray)
    else if t == (255, 128, 128) then Some(LightRed)
    else if t == (128, 255, 128) then Some(LightGreen)
    else if t == (255, 255, 128) then Some(LightYellow)
    else if t == (128, 128, 255) then Some(LightBlue)
    else if t == (255, 128, 255) then Some(LightMagenta)
    else if t == (128, 255, 255) then Some(LightCyan)
    else if t == (255, 255, 255) then Some(White)
    else None
  }

  /** The conversion is lossless on the named colours: each one is recovered from its triple. */
  lemma NamedRoundTrip(c: TermColor)
    requires IsNamed(c)
    ensures NamedFromRgb(ColorToRgb(c)) == Some(c)
  {
  }

  /** Two named colours with the same triple are the same colour. */
  lemma NamedInjective(c: TermColor, d: TermColor)
    requires IsNamed(c) && IsNamed(d)
    requires ColorToRgb(c) == ColorToRgb(d)
    ensures c == d
  {
    NamedRoundTrip(c);
    NamedRoundTrip(d);
  }

  /** Black and white are the two extremes of the cube. */
  lemma BlackAndWhite()
    ensures ColorToRgb(Black) == BlackRgb
    ensures ColorToRgb(White) == (255, 255, 255)
  {
  }

  /** Converting, wrapping the triple as an RGB colour and converting again changes nothing. */
  lemma RgbIdempotent(c: TermColor)
    ensures var t := ColorToRgb(c); ColorToRgb(Rgb(t.0, t.1, t.2)) == t
  {
  }
}
