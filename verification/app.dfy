/**
 * The interactive session: the key-press dispatch (`handle_input`) and the
 * per-frame loop (`run`). The terminal and its event queue are abstracted to
 * one input value per frame; drawing goes to a cell buffer.
 */
module App {
  import opened Colors
  import opened Escape
  import opened Plane
  import opened Fractal

  datatype AppState = Running | Quit

  datatype KeyKind = Press | Repeat | Release

  /** The keys the dispatch tells apart; every other key is `OtherKey`. */
  datatype KeyCode = Char(ch: char) | Left | Right | Up | Down | Enter | OtherKey

  /** A terminal event: a key event, or anything else (mouse, resize, focus, paste). */
  datatype Event = Key(kind: KeyKind, code: KeyCode) | OtherEvent

  /**
   * What one poll of the terminal yields: nothing within the frame timeout, an
   * event, or an I/O error from polling or reading.
   */
  datatype Input = Idle | Received(event: Event) | ReadError

  /** The state a key press acts on. */
  datatype Session = Session(state: AppState, view: ViewState)

  const ZoomFactor: real := 1.1
  const PanStep: real := 0.1

  /** `u32` increment with wrap-around, as in a release build. */
  function WrappingInc(m: u32): (r: u32)
    ensures m < U32Max ==> r as int == m as int + 1
  {
    if m == U32Max then 0 else m + 1
  }

  /** `u32` decrement saturating at zero. */
  function SaturatingDec(m: u32): (r: u32)
    ensures r <= m
    ensures m > 0 ==> r as int == m as int - 1
  {
    if m == 0 then 0 else m - 1
  }

  /** The keys the dispatch acts on. */
  predicate Recognised(code: KeyCode) {
    code in {Char('q'), Char('+'), Char('='), Char('-'), Char('r'), Char('f'),
             Char('a'), Left, Char('d'), Right, Char('w'), Up, Char('s'), Down,
             Char(' '), Enter, Char('g')}
  }

  /**
   * The effect of pressing `code`: quit, zoom, change the iteration bound, pan
   * by a step that shrinks with the zoom, cycle the palette, toggle the family.
   */
  function Dispatch(s: Session, code: KeyCode, paletteCount: nat): (r: Session)
    requires s.view.scale > 0.0 && paletteCount > 0
    ensures r.view.scale > 0.0
    ensures s.view.currentPalette < paletteCount ==> r.view.currentPalette < paletteCount
    ensures r.view.julia == s.view.julia
    ensures r.state == Quit <==> s.state == Quit || code == Char('q')
    ensures !Recognised(code) || code == Char('g') ==> r == s
  {
    var v := s.view;
    var step := PanStep / v.scale;
    match code
    case Char('q') => s.(state := Quit)
    case Char('+') | Char('=') => s.(view := v.(scale := v.scale * ZoomFactor))
    case Char('-') => s.(view := v.(scale := v.scale / ZoomFactor))
    case Char('r') => s.(view := v.(maxIterations := WrappingInc(v.maxIterations)))
    case Char('f') => s.(view := v.(maxIterations := SaturatingDec(v.maxIterations)))
    case Char('a') | Left => s.(view := v.(centerX := v.centerX - step))
    case Char('d') | Right => s.(view := v.(centerX := v.centerX + step))
    case Char('w') | Up => s.(view := v.(centerY := v.centerY - step))
    case Char('s') | Down => s.(view := v.(centerY := v.centerY + step))
    case Char(' ') => s.(view := v.(currentPalette := (v.currentPalette + 1) % paletteCount))
    case Enter => s.(view := v.(kind := Toggled(v.kind)))
    case _ => s
  }

  /**
   * What each recognised key does to the session, as one field update: 'q'
   * quits, '+' and '=' multiply the scale by the zoom factor and '-' divides
   * it, 'r' and 'f' step the iteration bound, 'a'/'d' and the left/right
   * arrows move the centre left/right and 'w'/'s' and the up/down arrows move
   * it up/down by the pan step over the scale, space selects the next palette,
   * Enter toggles the family and 'g' leaves the session as it is.
   */
  lemma KeyEffects(s: Session, n: nat)
    requires s.view.scale > 0.0 && n > 0
    ensures var v := s.view; var step := PanStep / v.scale;
      && Dispatch(s, Char('q'), n) == s.(state := Quit)
      && Dispatch(s, Char('+'), n) == s.(view := v.(scale := v.scale * ZoomFactor))
      && Dispatch(s, Char('='), n) == s.(view := v.(scale := v.scale * ZoomFactor))
      && Dispatch(s, Char('-'), n) == s.(view := v.(scale := v.scale / ZoomFactor))
      && Dispatch(s, Char('r'), n) == s.(view := v.(maxIterations := WrappingInc(v.maxIterations)))
      && Dispatch(s, Char('f'), n) == s.(view := v.(maxIterations := SaturatingDec(v.maxIterations)))
      && Dispatch(s, Char('a'), n) == s.(view := v.(centerX := v.centerX - step))
      && Dispatch(s, Left, n) == s.(view := v.(centerX := v.centerX - step))
      && Dispatch(s, Char('d'), n) == s.(view := v.(centerX := v.centerX + step))
      && Dispatch(s, Right, n) == s.(view := v.(centerX := v.centerX + step))
      && Dispatch(s, Char('w'), n) == s.(view := v.(centerY := v.centerY - step))
      && Dispatch(s, Up, n) == s.(view := v.(centerY := v.centerY - step))
      && Dispatch(s, Char('s'), n) == s.(view := v.(centerY := v.centerY + step))
      && Dispatch(s, Down, n) == s.(view := v.(centerY := v.centerY + step))
      && Dispatch(s, Char(' '), n) == s.(view := v.(currentPalette := (v.currentPalette + 1) % n))
      && Dispatch(s, Enter, n) == s.(view := v.(kind := Toggled(v.kind)))
      && Dispatch(s, Char('g'), n) == s
  {
  }

  /** Pressing `code` `k` times in a row. */
  function PressMany(s: Session, code: KeyCode, k: nat, paletteCount: nat): (r: Session)
    requires s.view.scale > 0.0 && paletteCount > 0
    ensures r.view.scale > 0.0
    decreases k
  {
    if k == 0 then s else Dispatch(PressMany(s, code, k - 1, paletteCount), code, paletteCount)
  }

  /** One press of space moves to the next palette, or back to the first after the last. */
  lemma SpaceStep(s: Session, n: nat)
    requires s.view.scale > 0.0 && n > 0
    requires s.view.currentPalette < n
    ensures var p := s.view.currentPalette;
      Dispatch(s, Char(' '), n) == s.(view := s.view.(currentPalette := if p + 1 == n then 0 else p + 1))
  {
  }

  /**
   * After `k` presses of space, `k` at most the registry length, the palette
   * index has advanced by `k` and wrapped around past the last palette.
   */
  lemma {:induction false} PaletteAdvances(s: Session, k: nat, n: nat)
    requires s.view.scale > 0.0 && n > 0
    requires s.view.currentPalette < n && k <= n
    ensures var p := s.view.currentPalette;
      PressMany(s, Char(' '), k, n) == s.(view := s.view.(currentPalette := if p + k < n then p + k else p + k - n))
  {
    if k > 0 {
      PaletteAdvances(s, k - 1, n);
      SpaceStep(PressMany(s, Char(' '), k - 1, n), n);
    }
  }

  /** Pressing space as many times as there are palettes returns to the starting palette. */
  lemma PaletteCycleReturns(s: Session, n: nat)
    requires s.view.scale > 0.0 && n > 0
    requires s.view.currentPalette < n
    ensures PressMany(s, Char(' '), n, n) == s
  {
    PaletteAdvances(s, n, n);
  }

  /** Enter twice restores the fractal family, and everything else. */
  lemma ToggleTwice(s: Session, n: nat)
    requires s.view.scale > 0.0 && n > 0
    ensures Dispatch(s, Enter, n).view.kind != s.view.kind
    ensures Dispatch(Dispatch(s, Enter, n), Enter, n) == s
  {
  }

  /** Zooming in then out, or out then in, restores the scale. */
  lemma ZoomInverse(s: Session, n: nat)
    requires s.view.scale > 0.0 && n > 0
    ensures Dispatch(Dispatch(s, Char('+'), n), Char('-'), n) == s
    ensures Dispatch(Dispatch(s, Char('-'), n), Char('+'), n) == s
    ensures Dispatch(s, Char('='), n) == Dispatch(s, Char('+'), n)
  {
    var v := s.view;
    assert v.scale * ZoomFactor / ZoomFactor == v.scale;
    assert v.scale / ZoomFactor * ZoomFactor == v.scale;
  }

  /** Opposite pan keys undo each other, and the arrow keys act as a/d/w/s. */
  lemma PanInverse(s: Session, n: nat)
    requires s.view.scale > 0.0 && n > 0
    ensures Dispatch(Dispatch(s, Char('a'), n), Char('d'), n) == s
    ensures Dispatch(Dispatch(s, Char('d'), n), Char('a'), n) == s
    ensures Dispatch(Dispatch(s, Char('w'), n), Char('s'), n) == s
    ensures Dispatch(Dispatch(s, Char('s'), n), Char('w'), n) == s
    ensures Dispatch(s, Left, n) == Dispatch(s, Char('a'), n)
    ensures Dispatch(s, Right, n) == Dispatch(s, Char('d'), n)
    ensures Dispatch(s, Up, n) == Dispatch(s, Char('w'), n)
    ensures Dispatch(s, Down, n) == Dispatch(s, Char('s'), n)
  {
  }

  /**
   * A pan step is the same fraction, one 35th, of the visible plane width at
   * every zoom.
   */
  lemma PanStepFollowsZoom(s: Session, n: nat, w: nat, h: nat)
    requires s.view.scale > 0.0 && n > 0
    requires w > 0 && h > 0
    ensures var vw := GetViewport(s.view.centerX, s.view.centerY, s.view.scale, w, h).vw;
      (Dispatch(s, Char('d'), n).view.centerX - s.view.centerX) * 35.0 == vw
  {
    var v := s.view;
    var vw := GetViewport(v.centerX, v.centerY, v.scale, w, h).vw;
    assert vw * v.scale == BaseSpan;
    assert (PanStep / v.scale) * 35.0 * v.scale == BaseSpan;
  }

  /**
   * 'r' raises and 'f' lowers the iteration bound; 'f' stops at zero, and the
   * two undo each other away from the ends of the `u32` range.
   */
  lemma IterationKeys(s: Session, n: nat)
    requires s.view.scale > 0.0 && n > 0
    ensures s.view.maxIterations == 0 ==> Dispatch(s, Char('f'), n) == s
    ensures s.view.maxIterations > 0 ==>
      Dispatch(s, Char('f'), n).view.maxIterations as int == s.view.maxIterations as int - 1
    ensures s.view.maxIterations < U32Max ==>
      Dispatch(s, Char('r'), n).view.maxIterations as int == s.view.maxIterations as int + 1
    ensures s.view.maxIterations < U32Max ==> Dispatch(Dispatch(s, Char('r'), n), Char('f'), n) == s
    ensures s.view.maxIterations > 0 ==> Dispatch(Dispatch(s, Char('f'), n), Char('r'), n) == s
  {
  }

  /** The whole application: its run state, the fractal widget and the frame counter. */
  class App {
    var state: AppState
    var fractal: FractalWidget
    var frameCounter: nat

    ghost predicate Valid()
      reads this, fractal
    {
      fractal.Valid()
    }

    /** The state a key press acts on. */
    function CurrentSession(): (s: Session)
      reads this, fractal
    {
      Session(state, fractal.View())
    }

    constructor (registry: seq<Palette>)
      requires |registry| == PaletteCount
      ensures Valid() && fresh(fractal)
      ensures state == Running && frameCounter == 0
      ensures fractal.View() == ViewState(-0.5, 0.0, 1.0, 100, 0, Mandelbrot, Complex(-0.5251993, -0.5251993))
      ensures fractal.colors == [] && fractal.needRender && fractal.palettes == registry
    {
      state := Running;
      fractal := new FractalWidget(registry);
      frameCounter := 0;
    }

    /**
     * Handles what one poll of the terminal yields. A key press updates the
     * session as Dispatch says, asks for a redraw and empties the buffer; an
     * idle poll, a non-key event or a key release or repeat changes nothing;
     * an I/O error is reported. Pressing 'g' asks for a screenshot.
     */
    method HandleInput(input: Input) returns (ok: bool, saveRequested: bool)
      requires Valid()
      modifies this`state, fractal
      ensures Valid()
      ensures fractal == old(fractal) && fractal.palettes == old(fractal.palettes)
      ensures ok <==> !input.ReadError?
      ensures saveRequested <==> input == Received(Key(Press, Char('g')))
      ensures IsPress(input) ==>
        && CurrentSession() == Dispatch(old(CurrentSession()), input.event.code, |fractal.palettes|)
        && fractal.needRender && fractal.colors == []
      ensures !IsPress(input) ==>
        && CurrentSession() == old(CurrentSession())
        && fractal.needRender == old(fractal.needRender) && fractal.colors == old(fractal.colors)
    {
      ok, saveRequested := true, false;
      if input.ReadError? {
        return false, false;
      }
      if input.Idle? || input.event.OtherEvent? {
        return;
      }
      var key := input.event;
      if key.kind != Press {
        return;
      }
      saveRequested := PressKey(key.code);
    }

    /**
     * Acts on a key press: redraw is requested, the session changes as
     * Dispatch says and the colour buffer is emptied; 'g' asks for a
     * screenshot.
     */
    method PressKey(code: KeyCode) returns (saveRequested: bool)
      requires Valid()
      modifies this`state, fractal
      ensures Valid()
      ensures fractal == old(fractal) && fractal.palettes == old(fractal.palettes)
      ensures saveRequested <==> code == Char('g')
      ensures CurrentSession() == Dispatch(old(CurrentSession()), code, |fractal.palettes|)
      ensures fractal.needRender && fractal.colors == []
    {
      saveRequested := false;
      var f := fractal;
      var step := PanStep / f.scale;
      f.needRender := true;

      match code {
        case Char('q') => state := Quit;
        case Char('+') | Char('=') => f.scale := f.scale * ZoomFactor;
        case Char('-') => f.scale := f.scale / ZoomFactor;
        case Char('r') => f.maxIterations := WrappingInc(f.maxIterations);
        case Char('f') => f.maxIterations := SaturatingDec(f.maxIterations);
        case Char('a') | Left => f.centerX := f.centerX - step;
        case Char('d') | Right => f.centerX := f.centerX + step;
        case Char('w') | Up => f.centerY := f.centerY - step;
        case Char('s') | Down => f.centerY := f.centerY + step;
        case Char(' ') => f.currentPalette := (f.currentPalette + 1) % |f.palettes|;
        case Enter => f.kind := Toggled(f.kind);
        case Char('g') => saveRequested := true;
        case _ =>
      }

      if f.needRender {
        f.colors := [];
      }
    }

    /**
     * One frame of the run loop: set the animated Julia constant, ask for a
     * redraw, draw the fractal into `area` of `buf`, handle the frame's input
     * and count the frame. An input error ends the frame before it is counted.
     */
    method Tick(input: Input, anim: nat -> Complex, area: Rect, buf: array2<Cell>) returns (ok: bool)
      requires Valid()
      requires area.width > 0 && area.height > 0
      requires area.y + area.height <= buf.Length0 && area.x + area.width <= buf.Length1
      modifies this, fractal, buf
      ensures Valid()
      ensures fractal == old(fractal) && fractal.palettes == old(fractal.palettes)
      ensures ok <==> !input.ReadError?
      ensures frameCounter == old(frameCounter) + if ok then 1 else 0
      ensures var drawn := old(CurrentSession()).view.(julia := anim(old(frameCounter)));
        Shows(buf, area, FrameOf(drawn, fractal.palettes, area.width, 2 * area.height))
      ensures forall r, c :: 0 <= r < buf.Length0 && 0 <= c < buf.Length1 && !InArea(area, r, c) ==>
        buf[r, c] == old(buf[r, c])
      ensures CurrentSession() == FrameStep(old(CurrentSession()), input, anim(old(frameCounter)), |fractal.palettes|)
      ensures fractal.needRender
      ensures var drawn := old(CurrentSession()).view.(julia := anim(old(frameCounter)));
        fractal.colors == if IsPress(input) then [] else FrameOf(drawn, fractal.palettes, area.width, 2 * area.height)
    {
      var t := anim(frameCounter);
      ghost var drawn := CurrentSession().view.(julia := t);
      fractal.juliaRe, fractal.juliaIm := t.re, t.im;
      fractal.needRender := true;
      assert fractal.View() == drawn;

      fractal.Render(area, buf);
      ghost var frame := fractal.colors;
      assert frame == FrameOf(drawn, fractal.palettes, area.width, 2 * area.height);
      assert Shows(buf, area, frame);
      var saveRequested;
      ok, saveRequested := HandleInput(input);
      assert Shows(buf, area, frame);
      if !ok {
        return;
      }
      frameCounter := frameCounter + 1;
    }

    /**
     * What the run loop knows about the session after `frames` completed
     * frames of a run that started from session `s0` at frame `fc0`, `ok`
     * telling whether the last frame ended without an input error. A failed
     * frame still ran (it drew and updated the Julia constant), so `drawn`
     * frames ran in all and the session is `AfterFrames` of them. No completed
     * frame read an error, and the run went on only while no 'q' was pressed.
     */
    ghost predicate Progress(s0: Session, fc0: nat, inputs: seq<Input>, anim: nat -> Complex, ok: bool, frames: nat)
      reads this, fractal
    {
      var drawn := if ok then frames else frames + 1;
      && Valid()
      && s0.view.scale > 0.0 && s0.view.currentPalette < PaletteCount && drawn <= |inputs|
      && frameCounter == fc0 + frames
      && (s0.state == Quit ==> ok && frames == 0)
      && (!ok ==> inputs[frames].ReadError?)
      && (forall i :: 0 <= i < frames ==> !inputs[i].ReadError?)
      && (s0.state == Running && state == Running ==>
            forall i :: 0 <= i < frames ==> inputs[i] != Received(Key(Press, Char('q'))))
      && (s0.state == Running && state == Quit ==>
            && frames > 0 && inputs[frames - 1] == Received(Key(Press, Char('q')))
            && forall i :: 0 <= i < frames - 1 ==> inputs[i] != Received(Key(Press, Char('q'))))
      && CurrentSession() == AfterFrames(s0, inputs, drawn, fc0, anim, PaletteCount)
    }

    /**
     * Frame `k` of that run was the last one drawn: the buffer shows `shown`,
     * the frame of the view drawn then, and the widget keeps it unless that
     * frame's input was a key press.
     */
    ghost predicate ShowsFrame(s0: Session, fc0: nat, inputs: seq<Input>, anim: nat -> Complex, area: Rect,
                               buf: array2<Cell>, k: nat, shown: seq<seq<TermColor>>)
      reads this, fractal, buf
    {
      && Valid() && area.width > 0 && area.height > 0
      && s0.view.scale > 0.0 && s0.view.currentPalette < PaletteCount && k < |inputs|
      && shown == FrameOf(DrawnView(s0, inputs, k, fc0, anim, PaletteCount),
                          fractal.palettes, area.width, 2 * area.height)
      && fractal.needRender
      && Shows(buf, area, shown)
      && (IsPress(inputs[k]) ==> fractal.colors == [])
      && (!IsPress(inputs[k]) ==> fractal.colors == shown)
    }

    /**
     * One pass of the run loop: frame `k` is a `Tick` on `inputs[k]`. It
     * returns the loop's new `ok` and frame count, and `shown`, the frame it
     * drew.
     */
    method RunFrame(ghost s0: Session, ghost fc0: nat, inputs: seq<Input>, k: nat, anim: nat -> Complex, area: Rect,
                    buf: array2<Cell>)
      returns (ok: bool, frames: nat, ghost shown: seq<seq<TermColor>>)
      requires Progress(s0, fc0, inputs, anim, true, k)
      requires state == Running && k < |inputs|
      requires area.width > 0 && area.height > 0
      requires area.y + area.height <= buf.Length0 && area.x + area.width <= buf.Length1
      modifies this, fractal, buf
      ensures fractal == old(fractal) && fractal.palettes == old(fractal.palettes)
      ensures frames == if ok then k + 1 else k
      ensures Progress(s0, fc0, inputs, anim, ok, frames)
      ensures ShowsFrame(s0, fc0, inputs, anim, area, buf, if ok then frames - 1 else frames, shown)
      ensures forall r, c :: 0 <= r < buf.Length0 && 0 <= c < buf.Length1 && !InArea(area, r, c) ==>
        buf[r, c] == old(buf[r, c])
    {
      ghost var view := CurrentSession().view.(julia := anim(frameCounter));
      assert view == DrawnView(s0, inputs, k, fc0, anim, PaletteCount);
      shown := FrameOf(view, fractal.palettes, area.width, 2 * area.height);
      ok := Tick(inputs[k], anim, area, buf);
      frames := if ok then k + 1 else k;
      assert (if ok then frames else frames + 1) == k + 1;
      assert CurrentSession() == AfterFrames(s0, inputs, k + 1, fc0, anim, PaletteCount);
    }

    /**
     * The run loop over the inputs of successive frames: it goes on while the
     * application is running and stops at quit, at an input error, or when the
     * inputs run out. Returns whether it ended without error and how many
     * frames were completed; `shown` is the last frame drawn.
     */
    method Run(inputs: seq<Input>, anim: nat -> Complex, area: Rect, buf: array2<Cell>)
      returns (ok: bool, frames: nat, ghost shown: seq<seq<TermColor>>)
      requires Valid()
      requires area.width > 0 && area.height > 0
      requires area.y + area.height <= buf.Length0 && area.x + area.width <= buf.Length1
      modifies this, fractal, buf
      ensures Valid() && fractal == old(fractal)
      ensures Progress(old(CurrentSession()), old(frameCounter), inputs, anim, ok, frames)
      ensures frames <= |inputs|
      ensures frameCounter == old(frameCounter) + frames
      ensures old(state) == Quit ==> ok && frames == 0
      ensures ok && frames < |inputs| ==> state == Quit
      ensures !ok ==> frames < |inputs| && inputs[frames].ReadError?
      ensures forall i :: 0 <= i < frames ==> !inputs[i].ReadError?
      ensures old(state) == Running ==>
        forall i :: 0 <= i < frames - 1 ==> inputs[i] != Received(Key(Press, Char('q')))
      ensures old(state) == Running && state == Quit ==>
        frames > 0 && inputs[frames - 1] == Received(Key(Press, Char('q')))
      ensures fractal.palettes == old(fractal.palettes)
      ensures var drawn := if ok then frames else frames + 1;
        CurrentSession() == AfterFrames(old(CurrentSession()), inputs, drawn, old(frameCounter), anim, PaletteCount)
      ensures ok && frames == 0 ==> fractal.colors == old(fractal.colors) && fractal.needRender == old(fractal.needRender)
      ensures ok && frames == 0 ==>
        forall r, c :: 0 <= r < buf.Length0 && 0 <= c < buf.Length1 ==> buf[r, c] == old(buf[r, c])
      ensures !ok || frames > 0 ==>
        ShowsFrame(old(CurrentSession()), old(frameCounter), inputs, anim, area, buf, if ok then frames - 1 else frames, shown)
      ensures forall r, c :: 0 <= r < buf.Length0 && 0 <= c < buf.Length1 && !InArea(area, r, c) ==>
        buf[r, c] == old(buf[r, c])
    {
      ghost var s0, fc0 := CurrentSession(), frameCounter;
      shown := [];
      ok, frames := true, 0;
      while ok && state == Running && frames < |inputs|
        invariant fractal == old(fractal) && fractal.palettes == old(fractal.palettes)
        invariant Progress(s0, fc0, inputs, anim, ok, frames)
        invariant !ok || frames > 0 ==> ShowsFrame(s0, fc0, inputs, anim, area, buf, if ok then frames - 1 else frames, shown)
        invariant ok && frames == 0 ==> fractal.colors == old(fractal.colors) && fractal.needRender == old(fractal.needRender)
        invariant ok && frames == 0 ==>
          forall r, c :: 0 <= r < buf.Length0 && 0 <= c < buf.Length1 ==> buf[r, c] == old(buf[r, c])
        invariant forall r, c :: 0 <= r < buf.Length0 && 0 <= c < buf.Length1 && !InArea(area, r, c) ==>
          buf[r, c] == old(buf[r, c])
        decreases |inputs| - frames, if ok then 1 else 0
      {
        ok, frames, shown := RunFrame(s0, fc0, inputs, frames, anim, area, buf);
      }
      assert s0 == old(CurrentSession()) && fc0 == old(frameCounter);
    }
  }

  /**
   * One frame of the run loop on the session: the Julia constant becomes
   * `julia`, then a key press is dispatched; any other input leaves the rest
   * of the session as it is.
   */
  function FrameStep(s: Session, input: Input, julia: Complex, n: nat): (r: Session)
    requires s.view.scale > 0.0 && n > 0
    ensures r.view.scale > 0.0
    ensures s.view.currentPalette < n ==> r.view.currentPalette < n
    ensures r.view.julia == julia
    ensures r.state == Quit <==> s.state == Quit || input == Received(Key(Press, Char('q')))
    ensures !IsPress(input) ==> r == s.(view := s.view.(julia := julia))
  {
    var before := s.(view := s.view.(julia := julia));
    if IsPress(input) then Dispatch(before, input.event.code, n) else before
  }

  /**
   * The session after running the first `k` frames of `ins`, the first of them
   * numbered `fc`: frame `i` sets the Julia constant to `anim(fc + i)` and
   * handles `ins[i]`.
   */
  function AfterFrames(s: Session, ins: seq<Input>, k: nat, fc: nat, anim: nat -> Complex, n: nat): (r: Session)
    requires s.view.scale > 0.0 && n > 0 && k <= |ins|
    ensures r.view.scale > 0.0
    ensures s.view.currentPalette < n ==> r.view.currentPalette < n
    ensures k > 0 ==> r.view.julia == anim(fc + k - 1)
  {
    if k == 0 then s
    else FrameStep(AfterFrames(s, ins, k - 1, fc, anim, n), ins[k - 1], anim(fc + k - 1), n)
  }

  /**
   * After `k` frames the session has quit exactly when it had already, or one
   * of their inputs was a 'q' press.
   */
  lemma {:induction false} QuitIffPressed(s: Session, ins: seq<Input>, k: nat, fc: nat, anim: nat -> Complex, n: nat)
    requires s.view.scale > 0.0 && n > 0 && k <= |ins|
    ensures AfterFrames(s, ins, k, fc, anim, n).state == Quit <==>
      s.state == Quit || exists i :: 0 <= i < k && ins[i] == Received(Key(Press, Char('q')))
  {
    if k > 0 {
      QuitIffPressed(s, ins, k - 1, fc, anim, n);
    }
  }

  /** The view drawn in frame `k` of `ins`: the session before it, with that frame's Julia constant. */
  function DrawnView(s: Session, ins: seq<Input>, k: nat, fc: nat, anim: nat -> Complex, n: nat): (v: ViewState)
    requires s.view.scale > 0.0 && n > 0 && k < |ins|
    ensures v.scale > 0.0 && v.julia == anim(fc + k)
    ensures s.view.currentPalette < n ==> v.currentPalette < n
  {
    AfterFrames(s, ins, k, fc, anim, n).view.(julia := anim(fc + k))
  }

  /** The input is a key press (the only kind of input that changes anything). */
  predicate IsPress(input: Input) {
    input.Received? && input.event.Key? && input.event.kind == Press
  }
}
