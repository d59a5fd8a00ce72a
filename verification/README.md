# Fractouille, modelled in Dafny

Fractouille is a terminal explorer for the Mandelbrot and Julia sets. Each frame
it maps a grid of pixels onto a viewport of the complex plane. It runs the
escape-time iteration `z := z*z + c` for every pixel and colours each escape time
through one of six palettes. Points that never escape are painted black. The
colour buffer is memoised, and it is packed two pixel rows per terminal cell
using the upper-half-block glyph. Key presses zoom, pan, change the iteration
bound, cycle the palette, toggle the fractal family, quit, or ask for a
3840×2160 screenshot.

The model has five modules, one per component:

- `Colors` (`colors.dfy`): the terminal colour enumeration and `color_to_rgb`.
- `Escape` (`escape.dfy`): the orbit, the escape time as a function, and
  `iterate_point` as a loop proved equal to it.
- `Plane` (`plane.dfy`): `get_viewport`, the pixel-to-plane formulas, and the
  choice of orbit seed and constant for Mandelbrot and Julia pixels.
- `Fractal` (`fractal.dfy`): `get_color`, the frame as a pure function of the
  view, and the `FractalWidget` class.
  - Its `Compute` method rebuilds the `colors` field under the cache guard. It
    does this with loops that call `IteratePoint`.
  - Its `Render` method fills a two-dimensional cell buffer with the rotated
    column order.
- `App` (`app.dfy`): key dispatch as a pure transition (`Dispatch`) and the
  `App` class.
  - `HandleInput` changes the widget's fields in place and is proved to follow
    `Dispatch`.
  - `Tick` is one frame of `run`, and `Run` is the loop.

Numbers of type `f64` are Dafny `real`s. `u8` and `u32` are newtypes.

How the model reads the code, where the code is not what one might expect:

- Every key press sets `need_render` and empties the buffer, including keys
  the dispatch ignores (src/main.rs:64, 84-88). The model keeps this.
- Nothing ever clears `need_render`, and `run` sets it before every draw
  (src/main.rs:45). So in the running program `compute` rebuilds the buffer on
  every frame. The cache test is still modelled exactly. `Tick` states what is
  drawn: the freshly computed frame.
- The screenshot path colours pixels by the raw escape count, through the same
  `get_color` as the display (src/fractal.rs:145-147). It uses no smoothed
  escape value.
- The viewport's vertical span is the horizontal span divided by `width/height`.
  For the default view on a 4×8 grid this gives 7.0, with the top-left pixel at
  `(-2.25, -3.5)` (`Plane.DefaultViewExample`).

## Model

| member | source | states |
|---|---|---|
| `Colors.ColorToRgb` | src/utils.rs:3-23 | An `Rgb(r, g, b)` colour passes through unchanged; `Reset` and `Indexed` become black |
| `Colors.NamedFromRgb` | src/utils.rs:5-20 | Reading a triple back gives a named colour whose triple it is |
| `Colors.NamedRoundTrip` | src/utils.rs:4-20 | Each of the 16 named colours is recovered from its triple, so the conversion loses nothing on them |
| `Colors.NamedInjective` | src/utils.rs:5-20 | Two named colours with the same triple are the same colour |
| `Colors.BlackAndWhite` | src/utils.rs:5-20 | Black is (0,0,0) and White is (255,255,255) |
| `Colors.RgbIdempotent` | src/utils.rs:21 | Wrapping a converted triple as `Rgb` and converting again gives the same triple |
| `Escape.OrbitSucc` | src/fractal.rs:75-77 | Each orbit point is one `z*z + c` step after the previous one |
| `Escape.EscapeTime` | src/fractal.rs:72-81 | The escape time is at most the bound; no orbit point before it escaped; below the bound, the point at it has `zx²+zy² > 4` |
| `Escape.EscapeTimeUnique` | src/fractal.rs:72-81 | Those three properties determine the escape time |
| `Escape.EscapeCheckedFirst` | src/fractal.rs:74 | With bound 0, or a start point outside the radius-2 disc, the result is 0 |
| `Escape.MandelbrotShift` | src/fractal.rs:104-115 | The orbit from zero under `c` is the orbit of `c` under `c` one step later |
| `Escape.IteratePoint` | src/fractal.rs:72-81 | The loop returns `i <= max_iterations`. No orbit point before step `i` escaped. A result below the bound means point `i` escaped. The result equals `EscapeTime` |
| `Plane.Toggled` | src/main.rs:77-82 | Toggling always changes the fractal family |
| `Plane.GetViewport` | src/fractal.rs:63-70 | `vw·scale = 3.5`, `vh·width = vw·height`, `left + vw/2 = center_x`, `top + vh/2 = center_y` |
| `Plane.UniformSpacing` | src/fractal.rs:106-107 | Neighbouring pixels are exactly one pixel span `vw/w` (or `vh/h`) apart, along one axis only |
| `Plane.SquarePixels` | src/fractal.rs:63-70 | The horizontal and vertical pixel spans of a viewport are equal |
| `Plane.Corners` | src/fractal.rs:63-70 | Pixel (0,0) is the top-left corner. Grid point (w,h) is the centre plus half the spans |
| `Plane.PixelEscape` | src/fractal.rs:104-117 | A Mandelbrot pixel (seed 0) never escapes at step 0 when the bound is positive. A Julia pixel (seeded at the point) outside the disc escapes at 0 |
| `Plane.MandelbrotIsShiftedJulia` | src/fractal.rs:104-115 | The Mandelbrot pixel at `p` escapes one step after the Julia pixel at `p` for the constant `p` |
| `Plane.DefaultViewExample` | src/fractal.rs:63-70 | The default view on a 4×8 grid spans 3.5 by 7.0 from `(-2.25, -3.5)` |
| `Fractal.GetColor` | src/fractal.rs:83-89 | The colour is Black exactly when the count equals `max_iterations`. Otherwise it is the RGB colour that the active palette gives for `count / max_iterations` |
| `Fractal.InteriorBlackInEveryPalette` | src/fractal.rs:83-89 | A never-escaped point is Black, and (0,0,0) as RGB, whichever palette is selected |
| `Fractal.FrameOf` | src/fractal.rs:98-122 | The frame has exactly `h` rows of `w` cells |
| `Fractal.FrameInteriorBlack` | src/fractal.rs:100-122 | A frame cell is Black exactly when its pixel's escape time reaches the bound |
| `Fractal.SnapshotPixel` | src/fractal.rs:126-148 | A screenshot pixel is (0,0,0) for a never-escaped point. Otherwise it is the palette at `count/max_iterations` |
| `Fractal.RotateColumn` | src/fractal.rs:52 | The display column maps into `0..w`: to `xi+1`, or to 0 after the last column |
| `Fractal.UnrotateColumn` | src/fractal.rs:52 | The inverse map stays in `0..w`: it gives `j-1`, or `w-1` for `j = 0` |
| `Fractal.RotationIsBijection` | src/fractal.rs:51-56 | Rotation and unrotation undo each other on `0..w`, so `xi ↦ (xi+1) % w` is a permutation |
| `Fractal.RotationInjective` | src/fractal.rs:51-56 | No two display columns show the same buffer column |
| `Fractal.FractalWidget.constructor` | src/fractal.rs:29-44 | Defaults: centre (-0.5, 0), scale 1, 100 iterations, palette 0, Mandelbrot, Julia constant (-0.5251993, -0.5251993), empty buffer, redraw requested |
| `Fractal.FractalWidget.Compute` | src/fractal.rs:92-123 | The buffer is kept iff it has `2·height` rows, row 0 has `width` cells and no redraw is asked. Otherwise it becomes the frame of the current view. It is always `2·height` × `width`, and nothing else changes |
| `Fractal.FractalWidget.Render` | src/fractal.rs:47-59 | After computing, cell `(xi, yi)` of the area is a half block. Its foreground is `colors[2yi][(xi+1)%w]` and its background `colors[2yi+1][(xi+1)%w]`. Cells outside the area are untouched |
| `Fractal.FractalWidget.ComputeRow` | src/fractal.rs:101-120 | The row it builds is row `y` of the frame of the current view |
| `Fractal.FractalWidget.PaintColumn` | src/fractal.rs:53-57 | Every cell of one display column is the half block of buffer rows `2yi` and `2yi+1` at the given buffer column. No other cell changes |
| `Fractal.FractalWidget.Paint` | src/fractal.rs:51-58 | The area shows the colour buffer through the rotated column order. Cells outside the area are untouched |
| `App.WrappingInc` | src/main.rs:70 | Below `u32::MAX` the bound goes up by exactly one |
| `App.SaturatingDec` | src/main.rs:71 | The bound never goes up, and above 0 it goes down by exactly one |
| `App.Dispatch` | src/main.rs:62-85 | A key press keeps the scale positive and the palette index in range. It never touches the Julia constant. It ends in Quit iff already quitting or the key is 'q'. Unrecognised keys and 'g' change nothing |
| `App.KeyEffects` | src/main.rs:62-85 | Each recognised key changes exactly one field. 'q' sets Quit. '+'/'=' multiply the scale by 1.1 and '-' divides it by 1.1. 'r'/'f' step the bound. 'a'/Left and 'd'/Right move `center_x` down and up by `0.1/scale`; 'w'/Up and 's'/Down do the same to `center_y`. Space selects the next palette, Enter toggles the family and 'g' changes nothing |
| `App.SpaceStep` | src/main.rs:76 | Space selects the next palette, or the first after the last |
| `App.PaletteAdvances` | src/main.rs:76 | `k ≤ n` presses of space advance the palette by `k`, wrapping past the last |
| `App.PaletteCycleReturns` | src/main.rs:76 | As many presses of space as there are palettes restore the session |
| `App.ToggleTwice` | src/main.rs:77-82 | Enter changes the family; two presses restore the session |
| `App.ZoomInverse` | src/main.rs:68-69 | '+' then '-' (or '-' then '+') restores the session; '=' acts as '+' |
| `App.PanInverse` | src/main.rs:72-75 | Opposite pan keys undo each other; the arrow keys act as a/d/w/s |
| `App.PanStepFollowsZoom` | src/main.rs:63-75 | At any zoom, a pan step is one 35th of the visible plane width |
| `App.IterationKeys` | src/main.rs:70-71 | 'f' stays at 0 at 0 and otherwise lowers the bound by one. 'r' raises it by one below the maximum. The two undo each other |
| `App.App.constructor` | src/main.rs:17-29 | The application starts Running at frame 0, with the default widget |
| `App.App.HandleInput` | src/main.rs:54-95 | A key press moves the session as `Dispatch` says, sets `need_render` and empties the buffer. Idle polls, other events and non-press keys change nothing. An I/O error is reported. Only 'g' asks for a screenshot |
| `App.App.PressKey` | src/main.rs:62-88 | A press of any key moves the session as `Dispatch` says, sets `need_render` and empties the buffer. Only 'g' asks for a screenshot. The palettes are unchanged |
| `App.App.Tick` | src/main.rs:42-49 | A frame draws the freshly computed frame of the view with that frame's Julia constant and keeps every cell outside the area. Then it applies the input. Afterwards a redraw is pending, and the buffer is empty after a key press and holds the drawn frame otherwise. The counter goes up by exactly one unless the input failed |
| `App.App.Run` | src/main.rs:40-52 | The loop runs only while Running and counts each completed frame. It stops on an input error, when inputs run out, or right after the first 'q' press: when it ends in Quit, the last consumed input is that press and no earlier one was. The final session is `AfterFrames` of every frame that ran, including a frame whose input failed (its Julia update stays). After the last frame that ran, the buffer is empty or holds that frame, a redraw is pending, and the area shows the frame of `DrawnView`. If no frame ran, the widget and every cell are as before. Cells outside the area are never touched |
| `App.App.RunFrame` | src/main.rs:41-50 | One loop iteration from frame `k`: it extends the run's progress by one frame (or stops on an input error), and the area then shows the frame of `DrawnView` at `k` |
| `App.FrameStep` | src/main.rs:42-48 | One frame sets the Julia constant and then dispatches a key press. The scale stays positive and the palette in range. The session quits iff it had quit or the input is a 'q' press. Any other input changes only the Julia constant |
| `App.AfterFrames` | src/main.rs:40-50 | The session after `k` frames keeps a positive scale and an in-range palette, and holds the Julia constant of its last frame, `anim(fc + k - 1)` |
| `App.QuitIffPressed` | src/main.rs:67 | After `k` frames the session has quit exactly when it had already quit, or one of those frames' inputs was a 'q' press |
| `App.DrawnView` | src/main.rs:42-47 | The view drawn in frame `k` has positive scale, an in-range palette and the Julia constant `anim(fc + k)` |

## Left out

- Terminal set-up and tear-down (`ratatui::init`/`restore`) are not modelled.
- Event polling with its 1/60 s timeout is replaced by one abstract `Input` per frame; `Run` takes a finite sequence of them.
- Errors from `term.draw` are not modelled.
- The title bar and the layout split are not modelled. The fractal's area is a parameter of `Tick` and `Run`.
- The cell buffer has a fixed size, so terminal resizes between frames are not captured.
- Display cells carry only their glyph and two colours. Other attributes of a terminal cell are outside the model.
- The screenshot's image buffer, `put_pixel` and `save("screenshot.png").unwrap()` are not modelled. `SnapshotPixel` gives the triple written per pixel, and `HandleInput` reports that a screenshot was asked for.
- The six palette formulas (floating-point polynomials, `powf`, `sin` and saturating `as u8` casts) are not modelled. The registry is a sequence of six functions from the escape fraction to an RGB triple. All six source palettes build `Color::Rgb` (src/palettes.rs:11-44).
- The Julia-constant animation `0.7885·(cos, sin)(frame·0.02)` is transcendental. `Tick` and `Run` take it as a function of the frame counter.
- IEEE-754 rounding in the viewport, pan, zoom and orbit arithmetic is not captured. All of it is exact real arithmetic, so zoom and pan are exactly invertible in the model.
- Zero-size areas are excluded by preconditions. With one, `compute` would read `colors[0]` of an empty buffer and `get_viewport` would divide by zero.
- `Rect` coordinates are `nat`, not `u16`, and the saturating `right()`/`bottom()` are not modelled.
- The `frame_counter` is a `nat`. Its `u64` overflow, after 2^64 frames, is not modelled.
- App.WrappingInc: at `u32::MAX` the model wraps to 0, as a release build does. A debug build panics instead, and that is not modelled.
- Fractal.GetColor: requires `n <= max_iterations`. Its only caller passes an escape time, which satisfies this. A larger `n` with `max_iterations = 0` would divide by zero in `f64`.
