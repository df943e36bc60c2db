/**
  The lock-screen audio visualizer view of the status bar. A set of flags
  decides whether the view is shown and whether it is "displaying" (linked to
  the audio visualizer); colour changes are normalised to the configured
  opacity; tuning settings are parsed as integers with fixed fallbacks; the
  unit count sizes the FFT point buffer and the bar animators.

  Animators, the audio capture, drawing and thread dispatch are not run: the
  requests the view makes of them are recorded in a ghost event log.
 */
module StatusBarVisualizer {
  import opened Wrappers
  import opened JavaInt

  /** View.VISIBLE and View.GONE */
  const VISIBLE: int := 0
  const GONE: int := 8
  /** StatusBarState.SHADE */
  const SHADE: int := 0

  /** A colour is a Java `int` ARGB value, here read as its unsigned 32 bits: alpha, red, green, blue from the top byte down. */
  type Color = c: int | 0 <= c < 0x1_0000_0000

  const TRANSPARENT: Color := 0
  /** Color.WHITE, the Java `int` -1. */
  const WHITE: Color := 0xFFFF_FFFF
  /** The colour of a new Paint. */
  const BLACK: Color := 0xFF00_0000

  const DEFAULT_UNITS: int := 32
  const DEFAULT_LAVA_LAMP_SPEED: int := 10000
  const DEFAULT_FUDGE_FACTOR: int := 16
  const DEFAULT_OPACITY: int := 140
  const ANIMATOR_DURATION_MS: int := 128
  const FADE_OUT_MS: int := 600

  /** A bar's value animator: its duration, the FFT point slot it drives, and whether it was cancelled. */
  datatype Animator = Animator(durationMs: int, fftSlot: int, cancelled: bool)

  /** The three swatches of a generated palette that the view looks at; None where the palette has no such swatch. */
  datatype Palette = Palette(vibrant: Option<Color>, lightVibrant: Option<Color>, darkVibrant: Option<Color>)

  /** What the view asks of the animation and audio machinery. */
  datatype Event =
    | LinkRequested
    | LavaLampStarted
    | LavaLampStopped
    | UnlinkScheduled(fadeOutMs: int)
    | VisualizerCreated
    | ColorAnimation(from: Color, to: Color)
    | PaletteRequested(bitmap: nat)
    | LavaLampAnimationTime(ms: int)

  /** The outcome of a size or tuning change: done, or the Java exception that escapes it. */
  datatype Outcome = Applied | NegativeArraySize | IndexOutOfBounds

  // ---------------------------------------------------------------- event counting

  datatype EventKind = LinkKind | UnlinkKind | CreationKind | AnimationKind | OtherKind

  function KindOf(e: Event): (k: EventKind) {
    match e
    case LinkRequested => LinkKind
    case UnlinkScheduled(_) => UnlinkKind
    case VisualizerCreated => CreationKind
    case ColorAnimation(_, _) => AnimationKind
    case _ => OtherKind
  }

  /** How many events of kind `k` the log holds. */
  function Count(log: seq<Event>, k: EventKind): (n: nat) {
    if log == [] then 0
    else Count(log[..|log| - 1], k) + (if KindOf(log[|log| - 1]) == k then 1 else 0)
  }

  /** The ghost log of requests, oldest first, with a running tally of the kinds the invariant counts. */
  datatype Requests = Requests(log: seq<Event>, links: nat, unlinks: nat, creations: nat, animations: nat)

  const NoRequests: Requests := Requests([], 0, 0, 0, 0)

  /** The log with `e` appended and its kind counted. */
  function Record(r: Requests, e: Event): (r': Requests)
    ensures r'.log == r.log + [e]
  {
    var k := KindOf(e);
    Requests(r.log + [e],
             r.links + (if k == LinkKind then 1 else 0),
             r.unlinks + (if k == UnlinkKind then 1 else 0),
             r.creations + (if k == CreationKind then 1 else 0),
             r.animations + (if k == AnimationKind then 1 else 0))
  }

  /** The tallies are the counts of the log. */
  ghost predicate Tallied(r: Requests) {
    && r.links == Count(r.log, LinkKind)
    && r.unlinks == Count(r.log, UnlinkKind)
    && r.creations == Count(r.log, CreationKind)
    && r.animations == Count(r.log, AnimationKind)
  }

  /** Recording a request keeps the tallies equal to the counts of the log. */
  lemma RecordKeepsTally(r: Requests, e: Event)
    requires Tallied(r)
    ensures Tallied(Record(r, e))
  {
    var log := Record(r, e).log;
    assert log[..|log| - 1] == r.log;
  }

  // ---------------------------------------------------------------- colours

  function Alpha(c: Color): (a: int) { c / 0x100_0000 }
  function Red(c: Color): (r: int) { (c / 0x1_0000) % 0x100 }
  function Green(c: Color): (g: int) { (c / 0x100) % 0x100 }
  function Blue(c: Color): (b: int) { c % 0x100 }

  /**
    Color.argb: the four bytes put together, alpha on top. Shifting a Java
    `int` left by 24 keeps only its low byte, so only `alpha % 256` survives.
   */
  function Argb(alpha: int, red: int, green: int, blue: int): (c: Color)
    requires 0 <= red < 0x100 && 0 <= green < 0x100 && 0 <= blue < 0x100
    ensures Alpha(c) == alpha % 0x100
    ensures Red(c) == red && Green(c) == green && Blue(c) == blue
  {
    var high := (alpha % 0x100) * 0x100 + red;
    var upper := high * 0x100 + green;
    assert upper / 0x100 == high && upper % 0x100 == green;
    var c := upper * 0x100 + blue;
    assert c / 0x100 == upper && c % 0x100 == blue;
    assert c / 0x1_0000 == high by {
      assert c == high * 0x1_0000 + (green * 0x100 + blue);
    }
    assert c / 0x100_0000 == alpha % 0x100 by {
      assert c == (alpha % 0x100) * 0x100_0000 + (red * 0x1_0000 + green * 0x100 + blue);
    }
    c
  }

  /**
    The colour setColor stores: transparent is taken as white, and the alpha
    byte is replaced by the configured opacity's low byte while red, green and
    blue are kept.
   */
  function Normalize(c: Color, opacity: int): (n: Color)
    ensures Alpha(n) == opacity % 0x100
    ensures var base := if c == TRANSPARENT then WHITE else c;
            Red(n) == Red(base) && Green(n) == Green(base) && Blue(n) == Blue(base)
  {
    var base := if c == TRANSPARENT then WHITE else c;
    Argb(opacity, Red(base), Green(base), Blue(base))
  }

  /** A colour is its four bytes. */
  lemma ColorBytes(x: Color)
    ensures x == Alpha(x) * 0x100_0000 + Red(x) * 0x1_0000 + Green(x) * 0x100 + Blue(x)
  {
    var q0 := x / 0x100;
    var q1 := q0 / 0x100;
    assert x == q0 * 0x100 + Blue(x);
    assert q0 == q1 * 0x100 + Green(x);
    assert q1 == x / 0x1_0000;
    assert q1 == (q1 / 0x100) * 0x100 + Red(x);
    assert q1 / 0x100 == Alpha(x);
  }

  /**
    Normalising a stored colour again changes nothing, except when the stored
    colour is itself transparent (black at opacity 0), which becomes white.
   */
  lemma NormalizeStable(c: Color, opacity: int)
    ensures Normalize(Normalize(c, opacity), opacity) == Normalize(c, opacity)
            <==> Normalize(c, opacity) != TRANSPARENT
  {
    var n := Normalize(c, opacity);
    var m := Normalize(n, opacity);
    if n != TRANSPARENT {
      ColorBytes(n);
      ColorBytes(m);
    } else {
      assert Red(m) == Red(WHITE) == 0xFF;
    }
  }

  /** The first colour of the list that is not transparent, or transparent when there is none. */
  function FirstOpaque(candidates: seq<Color>): (c: Color)
    ensures c == TRANSPARENT <==> forall i :: 0 <= i < |candidates| ==> candidates[i] == TRANSPARENT
    ensures c != TRANSPARENT ==>
              exists i :: 0 <= i < |candidates| && candidates[i] == c
                          && forall j :: 0 <= j < i ==> candidates[j] == TRANSPARENT
  {
    if candidates == [] then TRANSPARENT
    else if candidates[0] != TRANSPARENT then candidates[0]
    else FirstOpaque(candidates[1..])
  }

  /** onGenerated's choice: the vibrant swatch, then light vibrant, then dark vibrant, the first that is not transparent. */
  function ChooseColor(p: Palette): (c: Color)
    ensures c == FirstOpaque([p.vibrant.GetOr(TRANSPARENT), p.lightVibrant.GetOr(TRANSPARENT),
                              p.darkVibrant.GetOr(TRANSPARENT)])
  {
    var cs := [p.vibrant.GetOr(TRANSPARENT), p.lightVibrant.GetOr(TRANSPARENT), p.darkVibrant.GetOr(TRANSPARENT)];
    assert cs[1..] == [cs[1], cs[2]] && cs[1..][1..] == [cs[2]] && cs[1..][1..][1..] == [];
    var color := p.vibrant.GetOr(TRANSPARENT);
    if color != TRANSPARENT then color
    else
      var light := p.lightVibrant.GetOr(color);
      if light != TRANSPARENT then light else p.darkVibrant.GetOr(light)
  }

  // ---------------------------------------------------------------- tuning values

  /** A numeric tuning value: the parsed integer, or `fallback` when the value does not parse. */
  function TuningInt(value: Option<string>, fallback: int): (n: int) {
    IntegerValue(value).GetOr(fallback)
  }

  /** An on/off tuning value: a parsed integer other than 0 is on; `default` when the value does not parse. */
  function TuningSwitch(value: Option<string>, default: bool): (on: bool) {
    match IntegerValue(value)
    case None => default
    case Some(n) => n != 0
  }

  /** TunerService.parseIntegerSwitch: the value parsed as a Java int, on when it is not 0. */
  method ParseSwitch(value: Option<string>, default: bool) returns (on: bool)
    ensures on == TuningSwitch(value, default)
  {
    var parsed := ParseInt(value);
    on := if parsed.Some? then parsed.value != 0 else default;
  }

  /** Integer.valueOf inside a try block that keeps `fallback` on NumberFormatException. */
  method ParseTuningInt(value: Option<string>, fallback: int) returns (n: int)
    ensures n == TuningInt(value, fallback)
  {
    n := fallback;
    var parsed := ParseInt(value);
    if parsed.Some? {
      n := parsed.value;
    }
  }

  /** A value written as an integer is read back as that integer, whatever the fallback. */
  lemma TuningReadsWrittenValue(n: int, fallback: int)
    requires InInt32(n)
    ensures TuningInt(Some(IntToString(n)), fallback) == n
  {
    ParseIntToString(n);
  }

  /** A value with a character that is neither a digit nor a leading sign takes the fallback. */
  lemma TuningFallsBackOnNonDigit(s: string, i: nat, fallback: int)
    requires i < |s| && !IsDigit(s[i])
    requires i > 0 || (s[0] != '-' && s[0] != '+')
    ensures TuningInt(Some(s), fallback) == fallback
  {
    var body := if s[0] == '-' || s[0] == '+' then s[1..] else s;
    if s[0] == '-' || s[0] == '+' {
      assert body[i - 1] == s[i];
    } else {
      assert body[i] == s[i];
    }
  }

  // ---------------------------------------------------------------- display state

  /** The visibility updateViewVisibility computes. */
  function VisibilityFor(visible: bool, statusBarState: int, enabled: bool): (v: int)
    ensures v == VISIBLE || v == GONE
    ensures v == VISIBLE <==> visible && statusBarState != SHADE && enabled
  {
    if visible && statusBarState != SHADE && enabled then VISIBLE else GONE
  }

  /**
    The requests checkStateChanged makes when `displaying` goes from
    `wasDisplaying` to `displayNow`: a link (and the lava lamp's start) on the
    rising edge, an unlink after the fade-out on the falling edge, nothing otherwise.
   */
  function Schedule(log: Requests, wasDisplaying: bool, displayNow: bool, isVisible: bool, lavaLamp: bool): (r: Requests)
    ensures wasDisplaying == displayNow ==> r == log
  {
    if displayNow && !wasDisplaying then
      var linked := Record(log, LinkRequested);
      if lavaLamp then Record(linked, LavaLampStarted) else linked
    else if !displayNow && wasDisplaying then Record(log, UnlinkScheduled(if isVisible then FADE_OUT_MS else 0))
    else log
  }

  /** Each edge of `displaying` schedules exactly one link or one unlink, and no other edge schedules either; no visualizer is created and no colour animated. */
  lemma ExactlyOneRequestPerEdge(log: Requests, wasDisplaying: bool, displayNow: bool, isVisible: bool, lavaLamp: bool)
    ensures var r := Schedule(log, wasDisplaying, displayNow, isVisible, lavaLamp);
            && r.links == log.links + (if displayNow && !wasDisplaying then 1 else 0)
            && r.unlinks == log.unlinks + (if wasDisplaying && !displayNow then 1 else 0)
            && r.creations == log.creations && r.animations == log.animations
  {
  }

  /** A fresh set of bar animators, animator i driving FFT point slot 4*i+1. */
  method NewAnimators(n: nat) returns (a: array<Animator>)
    ensures fresh(a) && a.Length == n
    ensures forall i :: 0 <= i < n ==> a[i] == Animator(ANIMATOR_DURATION_MS, 4 * i + 1, false)
  {
    a := new Animator[n](i => Animator(ANIMATOR_DURATION_MS, 4 * i + 1, false));
  }

  /** The FFT capture size the link task configures, in bytes. */
  const CAPTURE_SIZE: int := 66

  /**
    onFftDataCapture reads bytes 2*i+2 and 2*i+3 of the capture for every bar
    i below the unit count: all of them lie inside the capture exactly when
    there are at most 32 bars, the default.
   */
  lemma FftReadsInCapture(units: int)
    ensures (forall i :: 0 <= i < units ==> 2 * i + 3 < CAPTURE_SIZE) <==> units <= DEFAULT_UNITS
  {
    if units > DEFAULT_UNITS {
      assert !(2 * DEFAULT_UNITS + 3 < CAPTURE_SIZE);
    }
  }

  /** 4*u as a Java `int` is a multiple of 4 whenever it is not negative. */
  lemma WrappedTimesFour(u: int)
    ensures Wrap32(4 * u) >= 0 ==> Wrap32(4 * u) % 4 == 0
    ensures 0 <= u && 4 * u <= INT_MAX ==> Wrap32(4 * u) == 4 * u
  {
    var m := (4 * u) % TWO_TO_32;
    var q := (4 * u) / TWO_TO_32;
    assert 4 * u == q * TWO_TO_32 + m;
    assert m == 4 * (u - q * 0x4000_0000);
  }

  class VisualizerView {
    var statusBarState: int
    var visualizerEnabled: bool
    var visible: bool
    var playing: bool
    /** The state the view is animating to: linked to the audio visualizer. */
    var displaying: bool
    var dozing: bool
    var occluded: bool
    /** View.getVisibility() */
    var visibility: int

    var color: Color
    var paintColor: Color
    /** The current album-art bitmap, by identity; None for null. */
    var bitmap: Option<nat>
    var autoColor: bool
    var lavaLampEnabled: bool
    var lavaLampSpeed: int
    /** The next colour change may start the colour animation. */
    var shouldAnimate: bool
    /** An audio visualizer object exists (mVisualizer != null). */
    var hasVisualizer: bool

    var units: int
    var dbFuzzFactor: int
    var opacity: int
    var width: int
    var height: int
    var fftPoints: array<real>
    var animators: array<Animator>

    ghost var events: Requests

    /** The full conjunction under which the view displays. */
    predicate ShouldDisplay()
      reads this
    {
      visibility == VISIBLE && visualizerEnabled && playing && !dozing && !occluded
    }

    /**
      Over the tallies of the request log: links number unlinks plus one while
      displaying and equal them otherwise; an armed colour animation needs a
      visualizer, and colour animations (counting an armed one) never outnumber
      visualizer creations. RecordKeepsTally keeps the tallies equal to the
      counts of the log itself.
     */
    ghost predicate RequestsValid()
      reads this
    {
      && (shouldAnimate ==> hasVisualizer)
      && events.links == events.unlinks + (if displaying then 1 else 0)
      && events.animations + (if shouldAnimate then 1 else 0) <= events.creations
    }

    /** The buffers are sized for the unit count whenever 4*units fits in a Java int; animator i drives slot 4*i+1. */
    ghost predicate BuffersValid()
      reads this, animators
    {
      && fftPoints.Length % 4 == 0
      && (0 <= units && 4 * units <= INT_MAX ==> fftPoints.Length == 4 * units && animators.Length == units)
      && SlotsValid()
    }

    ghost predicate SlotsValid()
      reads this, animators
    {
      forall i :: 0 <= i < animators.Length ==> animators[i].fftSlot == 4 * i + 1
    }

    /** Displaying implies the view is visible, playing, not dozing and not occluded. */
    ghost predicate DisplayValid()
      reads this
    {
      displaying ==> visibility == VISIBLE && playing && !dozing && !occluded
    }

    /** The invariant every method keeps, whatever the display flags. */
    ghost predicate CoreValid()
      reads this, animators
    {
      RequestsValid() && BuffersValid()
    }

    /**
      The object invariant. The enabled flag is not part of DisplayValid: its
      tuning key does not re-check the state.
     */
    ghost predicate Valid()
      reads this, animators
    {
      CoreValid() && DisplayValid()
    }

    /** After checkStateChanged: displaying equals the conjunction, and the edge's request was made. */
    twostate predicate StateChecked()
      reads this
    {
      && displaying == ShouldDisplay()
      && events == Schedule(old(events), old(displaying), displaying, visibility == VISIBLE, lavaLampEnabled)
    }

    /** After updateViewVisibility: the visibility follows the flags and the state is re-checked only on a change. */
    twostate predicate VisibilityUpdated()
      reads this
    {
      && visibility == VisibilityFor(visible, statusBarState, visualizerEnabled)
      && (visibility == old(visibility) ==> displaying == old(displaying) && events == old(events))
      && (visibility != old(visibility) ==> StateChecked())
    }

    /** After setColor(c): the normalised colour is stored; paint and animation change only if it differs. */
    twostate predicate Recolored(c: Color)
      reads this`opacity, this`color, this`paintColor, this`shouldAnimate, this`hasVisualizer, this`events
    {
      var n := Normalize(c, opacity);
      var changed := n != old(color);
      var animates := changed && hasVisualizer && old(shouldAnimate);
      && color == n
      && paintColor == (if changed then n else old(paintColor))
      && shouldAnimate == (old(shouldAnimate) && !animates)
      && events == (if animates then Record(old(events), ColorAnimation(old(paintColor), n)) else old(events))
    }

    constructor (layoutVisibility: int)
      ensures Valid()
      ensures fresh(fftPoints) && fresh(animators)
      ensures units == DEFAULT_UNITS && fftPoints.Length == 4 * DEFAULT_UNITS && animators.Length == DEFAULT_UNITS
      ensures color == TRANSPARENT && paintColor == BLACK && bitmap.None?
      ensures opacity == DEFAULT_OPACITY && dbFuzzFactor == DEFAULT_FUDGE_FACTOR
      ensures visibility == layoutVisibility && statusBarState == SHADE
      ensures !visualizerEnabled && !visible && !playing && !displaying && !dozing && !occluded
      ensures !autoColor && !lavaLampEnabled && !shouldAnimate && !hasVisualizer
      ensures events == NoRequests
    {
      statusBarState := SHADE;
      visualizerEnabled, visible, playing, displaying, dozing, occluded := false, false, false, false, false, false;
      visibility := layoutVisibility;
      color := TRANSPARENT;
      paintColor := BLACK;
      bitmap := None;
      autoColor, lavaLampEnabled, lavaLampSpeed := false, false, 0;
      shouldAnimate, hasVisualizer := false, false;
      units := DEFAULT_UNITS;
      dbFuzzFactor := DEFAULT_FUDGE_FACTOR;
      opacity := DEFAULT_OPACITY;
      width, height := 0, 0;
      fftPoints := new real[4 * DEFAULT_UNITS];
      var bars := NewAnimators(DEFAULT_UNITS);
      animators := bars;
      events := NoRequests;
    }

    /**
      checkStateChanged: displaying becomes true only when visible, enabled,
      playing, not dozing and not occluded (requesting the link), and false only
      when that fails (scheduling the unlink after the fade-out).
     */
    method CheckStateChanged()
      requires CoreValid()
      modifies this`displaying, this`events
      ensures Valid()
      ensures StateChecked()
    {
      var isVisible := visibility == VISIBLE;
      ghost var requests := Schedule(events, displaying, ShouldDisplay(), isVisible, lavaLampEnabled);
      ExactlyOneRequestPerEdge(events, displaying, ShouldDisplay(), isVisible, lavaLampEnabled);
      if isVisible && visualizerEnabled && playing && !dozing && !occluded {
        if !displaying {
          // the link request, then the lava lamp's start when it is enabled
          displaying := true;
        }
      } else {
        if displaying {
          // the unlink, after the fade-out when the view is visible
          displaying := false;
        }
      }
      events := requests;
    }

    method UpdateViewVisibility()
      requires CoreValid()
      requires displaying ==> playing && !dozing && !occluded
      requires displaying && visibility == VisibilityFor(visible, statusBarState, visualizerEnabled) ==> visibility == VISIBLE
      modifies this`visibility, this`displaying, this`events
      ensures Valid()
      ensures VisibilityUpdated()
    {
      var newVis := if visible && statusBarState != SHADE && visualizerEnabled then VISIBLE else GONE;
      if visibility != newVis {
        visibility := newVis;
        CheckStateChanged();
      }
    }

    /** setVisible stores the flag and always recomputes the visibility. */
    method SetVisible(v: bool)
      requires Valid()
      modifies this`visible, this`visibility, this`displaying, this`events
      ensures Valid()
      ensures visible == v
      ensures VisibilityUpdated()
    {
      visible := v;
      UpdateViewVisibility();
    }

    /** setStatusBarState does nothing for the stored state; otherwise it stores it and recomputes the visibility. */
    method SetStatusBarState(state: int)
      requires Valid()
      modifies this`statusBarState, this`visibility, this`displaying, this`events
      ensures Valid()
      ensures statusBarState == state
      ensures state == old(statusBarState) ==>
                visibility == old(visibility) && displaying == old(displaying) && events == old(events)
      ensures state != old(statusBarState) ==> VisibilityUpdated()
    {
      if statusBarState != state {
        statusBarState := state;
        UpdateViewVisibility();
      }
    }

    /** setDozing does nothing for the stored value; otherwise it stores it and re-checks the state. */
    method SetDozing(d: bool)
      requires Valid()
      modifies this`dozing, this`displaying, this`events
      ensures Valid()
      ensures dozing == d
      ensures d == old(dozing) ==> displaying == old(displaying) && events == old(events)
      ensures d != old(dozing) ==> StateChecked()
    {
      if dozing != d {
        dozing := d;
        CheckStateChanged();
      }
    }

    /** setPlaying does nothing for the stored value; otherwise it stores it and re-checks the state. */
    method SetPlaying(p: bool)
      requires Valid()
      modifies this`playing, this`displaying, this`events
      ensures Valid()
      ensures playing == p
      ensures p == old(playing) ==> displaying == old(displaying) && events == old(events)
      ensures p != old(playing) ==> StateChecked()
    {
      if playing != p {
        playing := p;
        CheckStateChanged();
      }
    }

    /** setOccluded does nothing for the stored value; otherwise it stores it and re-checks the state. */
    method SetOccluded(o: bool)
      requires Valid()
      modifies this`occluded, this`displaying, this`events
      ensures Valid()
      ensures occluded == o
      ensures o == old(occluded) ==> displaying == old(displaying) && events == old(events)
      ensures o != old(occluded) ==> StateChecked()
    {
      if occluded != o {
        occluded := o;
        CheckStateChanged();
      }
    }

    /**
      setColor: stores the normalised colour when it differs from the current
      one, setting the paint to it; the colour animation starts only when a
      visualizer exists and shouldAnimate is set, which it clears.
     */
    method SetColor(c: Color)
      requires Valid()
      modifies this`color, this`paintColor, this`shouldAnimate, this`events
      ensures Valid()
      ensures Recolored(c)
    {
      var n := Normalize(c, opacity);
      if color != n {
        color := n;
        if hasVisualizer && shouldAnimate {
          shouldAnimate := false;
          events := Record(events, ColorAnimation(paintColor, color));
        }
        paintColor := color;
      }
    }

    /**
      setBitmap: the same bitmap changes nothing; null resets the colour to
      transparent; a new bitmap asks for a palette when autocolor is on and the
      lava lamp is off.
     */
    method SetBitmap(b: Option<nat>)
      requires Valid()
      modifies this`bitmap, this`color, this`paintColor, this`shouldAnimate, this`events
      ensures Valid()
      ensures bitmap == b
      ensures b == old(bitmap) ==>
                color == old(color) && paintColor == old(paintColor)
                && shouldAnimate == old(shouldAnimate) && events == old(events)
      ensures b != old(bitmap) && b.None? ==> Recolored(TRANSPARENT)
      ensures b != old(bitmap) && b.Some? ==>
                && color == old(color) && paintColor == old(paintColor) && shouldAnimate == old(shouldAnimate)
                && events == (if autoColor && !lavaLampEnabled then Record(old(events), PaletteRequested(b.value)) else old(events))
    {
      if bitmap == b {
        return;
      }
      bitmap := b;
      if bitmap.None? {
        SetColor(TRANSPARENT);
      } else if autoColor && !lavaLampEnabled {
        events := Record(events, PaletteRequested(b.value));
      }
    }

    /** onGenerated: the palette's chosen colour is set. */
    method OnGenerated(p: Palette)
      requires Valid()
      modifies this`color, this`paintColor, this`shouldAnimate, this`events
      ensures Valid()
      ensures Recolored(ChooseColor(p))
    {
      var c := p.vibrant.GetOr(TRANSPARENT);
      if c == TRANSPARENT {
        c := p.lightVibrant.GetOr(c);
        if c == TRANSPARENT {
          c := p.darkVibrant.GetOr(c);
        }
      }
      SetColor(c);
    }

    /** The lava lamp's colour callback recolours the view only while the lava lamp is enabled. */
    method OnColorChanged(c: Color)
      requires Valid()
      modifies this`color, this`paintColor, this`shouldAnimate, this`events
      ensures Valid()
      ensures lavaLampEnabled ==> Recolored(c)
      ensures !lavaLampEnabled ==>
                color == old(color) && paintColor == old(paintColor)
                && shouldAnimate == old(shouldAnimate) && events == old(events)
    {
      if lavaLampEnabled {
        SetColor(c);
      }
    }

    /** The link task: creates the visualizer if there is none (arming the colour animation), unless creation fails. */
    method RunLink(createFails: bool)
      requires Valid()
      modifies this`hasVisualizer, this`shouldAnimate, this`events
      ensures Valid()
      ensures hasVisualizer == (old(hasVisualizer) || !createFails)
      ensures old(hasVisualizer) || createFails ==> shouldAnimate == old(shouldAnimate) && events == old(events)
      ensures !old(hasVisualizer) && !createFails ==> shouldAnimate && events == Record(old(events), VisualizerCreated)
    {
      if !hasVisualizer {
        if createFails {
          // the exception is logged and the task returns
          return;
        }
        hasVisualizer := true;
        shouldAnimate := true;
        events := Record(events, VisualizerCreated);
      }
    }

    /**
      The unlink task: releases the visualizer, disarms the colour animation
      and, when neither autocolor nor the lava lamp is on, drops the bitmap and
      resets the colour to (normalised) transparent.
     */
    method RunUnlink()
      requires Valid()
      modifies this`hasVisualizer, this`shouldAnimate, this`bitmap, this`color, this`paintColor, this`events
      ensures Valid()
      ensures !hasVisualizer && !shouldAnimate
      ensures autoColor || lavaLampEnabled ==>
                bitmap == old(bitmap) && color == old(color) && paintColor == old(paintColor) && events == old(events)
      ensures !autoColor && !lavaLampEnabled ==>
                && bitmap.None? && color == Normalize(TRANSPARENT, opacity)
                && paintColor == (if color != old(color) then color else old(paintColor))
                && events == old(events)
    {
      if hasVisualizer {
        hasVisualizer := false;
      }
      shouldAnimate := false;
      if !autoColor && !lavaLampEnabled {
        if bitmap.Some? {
          SetBitmap(None);
        } else {
          SetColor(TRANSPARENT);
        }
      }
    }

    /** Detaching from the window stops the lava lamp and forgets the bitmap without recolouring. */
    method OnDetachedFromWindow()
      requires Valid()
      modifies this`bitmap, this`events
      ensures Valid()
      ensures bitmap.None? && events == Record(old(events), LavaLampStopped)
    {
      events := Record(events, LavaLampStopped);
      bitmap := None;
    }

    /**
      loadValueAnimators: cancels every current animator, then builds `units`
      new ones, animator i driving slot 4*i+1; a negative unit count throws
      NegativeArraySizeException after the cancellation.
     */
    method LoadValueAnimators() returns (ok: bool)
      requires SlotsValid()
      modifies this`animators, animators
      ensures SlotsValid()
      ensures forall i :: 0 <= i < old(animators).Length ==>
                old(animators)[i] == old(animators[i]).(cancelled := true)
      ensures ok <==> units >= 0
      ensures ok ==> fresh(animators) && animators.Length == units
      ensures ok ==> forall i :: 0 <= i < units ==> animators[i] == Animator(ANIMATOR_DURATION_MS, 4 * i + 1, false)
      ensures !ok ==> animators == old(animators)
    {
      var current := animators;
      var i := 0;
      while i < current.Length
        invariant 0 <= i <= current.Length
        invariant animators == current
        invariant forall k :: 0 <= k < i ==> current[k] == old(current[k]).(cancelled := true)
        invariant forall k :: i <= k < current.Length ==> current[k] == old(current[k])
      {
        current[i] := current[i].(cancelled := true);
        i := i + 1;
      }
      if units < 0 {
        return false;
      }
      animators := NewAnimators(units);
      ok := true;
    }

    /**
      setPortraitPoints: bar i is the line from (barX(i), height) to
      (barX(i), height), stored as four coordinates from slot 4*i on. barX is
      the x position the bar geometry computes from the width and the unit
      count. A bar that does not fit in the buffer throws
      ArrayIndexOutOfBoundsException; the bars before it have been written.
     */
    method SetPortraitPoints(barX: int -> real) returns (ok: bool)
      requires fftPoints.Length % 4 == 0
      modifies fftPoints
      ensures ok <==> 4 * units <= fftPoints.Length
      ensures forall k :: 0 <= k < fftPoints.Length ==>
                fftPoints[k] == if k / 4 >= units then old(fftPoints[k])
                                else if k % 4 == 1 || k % 4 == 3 then height as real
                                else barX(k / 4)
    {
      var i := 0;
      while i < units
        invariant 0 <= i && 4 * i <= fftPoints.Length
        invariant i <= units || i == 0
        invariant forall k :: 0 <= k < fftPoints.Length ==>
                    fftPoints[k] == if k / 4 >= i then old(fftPoints[k])
                                    else if k % 4 == 1 || k % 4 == 3 then height as real
                                    else barX(k / 4)
      {
        if i * 4 + 3 >= fftPoints.Length {
          assert 4 * i == fftPoints.Length;
          return false;
        }
        // the chained assignment stores slot 4*i+2 first, then 4*i
        fftPoints[i * 4 + 2] := barX(i);
        fftPoints[i * 4] := barX(i);
        fftPoints[i * 4 + 1] := height as real;
        fftPoints[i * 4 + 3] := height as real;
        i := i + 1;
      }
      forall k | 0 <= k < fftPoints.Length
        ensures (k / 4 < i) == (k / 4 < units)
      {
        assert units < 0 ==> i == 0 && k / 4 >= 0;
      }
      ok := true;
    }

    /**
      onSizeChanged: positive dimensions are kept, then the animators and the
      bar points are rebuilt; barX gives the bars' x positions for the new width.
     */
    method OnSizeChanged(w: int, h: int, barX: int -> real) returns (outcome: Outcome)
      requires Valid()
      modifies this`width, this`height, this`animators, animators, fftPoints
      ensures Valid()
      ensures width == (if w > 0 then w else old(width))
      ensures height == (if h > 0 then h else old(height))
      ensures forall i :: 0 <= i < old(animators).Length ==>
                old(animators)[i] == old(animators[i]).(cancelled := true)
      ensures outcome == NegativeArraySize <==> units < 0
      ensures outcome == Applied <==> 0 <= units && 4 * units <= fftPoints.Length
      ensures units >= 0 ==> fresh(animators) && animators.Length == units
      ensures units < 0 ==> animators == old(animators) && unchanged(fftPoints)
      ensures units >= 0 ==> forall k :: 0 <= k < fftPoints.Length ==>
                fftPoints[k] == if k / 4 >= units then old(fftPoints[k])
                                else if k % 4 == 1 || k % 4 == 3 then height as real
                                else barX(k / 4)
    {
      if w > 0 {
        width := w;
      }
      if h > 0 {
        height := h;
      }
      outcome := RebuildBars(barX);
    }

    /**
      The second half of onSizeChanged: the animators are rebuilt, then the bar
      points placed; a negative count stops at the first, a count too large
      for the buffer at the second.
     */
    method RebuildBars(barX: int -> real) returns (outcome: Outcome)
      requires SlotsValid() && fftPoints.Length % 4 == 0
      modifies this`animators, animators, fftPoints
      ensures SlotsValid()
      ensures forall i :: 0 <= i < old(animators).Length ==>
                old(animators)[i] == old(animators[i]).(cancelled := true)
      ensures outcome == NegativeArraySize <==> units < 0
      ensures outcome == Applied <==> 0 <= units && 4 * units <= fftPoints.Length
      ensures units >= 0 ==> fresh(animators) && animators.Length == units
      ensures units < 0 ==> animators == old(animators) && unchanged(fftPoints)
      ensures units >= 0 ==> forall k :: 0 <= k < fftPoints.Length ==>
                fftPoints[k] == if k / 4 >= units then old(fftPoints[k])
                                else if k % 4 == 1 || k % 4 == 3 then height as real
                                else barX(k / 4)
    {
      var loaded := LoadValueAnimators();
      if !loaded {
        return NegativeArraySize;
      }
      var placed := SetPortraitPoints(barX);
      outcome := if placed then Applied else IndexOutOfBounds;
    }

    /**
      The unit-count key: a changed count reallocates the point buffer to
      4*units (a Java int) and rebuilds the animators and the bar points, barX
      giving the bars' x positions for the new count.
     */
    method TuneUnits(value: Option<string>, barX: int -> real) returns (outcome: Outcome)
      requires Valid()
      modifies this`units, this`fftPoints, this`animators, animators
      ensures Valid()
      ensures units == TuningInt(value, DEFAULT_UNITS)
      ensures units == old(units) ==>
                outcome == Applied && fftPoints == old(fftPoints) && animators == old(animators)
                && unchanged(old(animators))
      ensures units != old(units) && Wrap32(4 * units) < 0 ==>
                outcome == NegativeArraySize && fftPoints == old(fftPoints) && animators == old(animators)
                && unchanged(old(animators))
      ensures units != old(units) && Wrap32(4 * units) >= 0 ==>
                && fresh(fftPoints) && fftPoints.Length == Wrap32(4 * units)
                && (forall i :: 0 <= i < old(animators).Length ==>
                      old(animators)[i] == old(animators[i]).(cancelled := true))
                && (units < 0 ==> outcome == NegativeArraySize && animators == old(animators))
                && (units >= 0 ==> fresh(animators) && animators.Length == units)
                && (units >= 0 ==> (outcome == Applied <==> 4 * units <= INT_MAX))
                && (units >= 0 ==> forall k :: 0 <= k < fftPoints.Length && k / 4 < units ==>
                      fftPoints[k] == if k % 4 == 1 || k % 4 == 3 then height as real else barX(k / 4))
      ensures 0 <= units && 4 * units <= INT_MAX ==>
                outcome == Applied && fftPoints.Length == 4 * units && animators.Length == units
    {
      var oldUnits := units;
      units := ParseTuningInt(value, DEFAULT_UNITS);
      WrappedTimesFour(units);
      if units != oldUnits {
        var len := Wrap32(units * 4);
        if len < 0 {
          return NegativeArraySize;
        }
        fftPoints := new real[len];
        // onSizeChanged(0, 0, 0, 0): the stored width and height stay
        outcome := RebuildBars(barX);
      } else {
        outcome := Applied;
      }
    }

    /** The enabled key: an unparsable value means enabled. The display state is not re-checked. */
    method TuneVisualizerEnabled(value: Option<string>)
      requires Valid()
      modifies this`visualizerEnabled
      ensures Valid()
      ensures visualizerEnabled == TuningSwitch(value, true)
    {
      visualizerEnabled := ParseSwitch(value, true);
    }

    /** The autocolor key: an unparsable value means off; the album art is then re-applied. */
    method TuneAutoColor(value: Option<string>)
      requires Valid()
      modifies this`autoColor, this`bitmap, this`color, this`paintColor, this`shouldAnimate, this`events
      ensures Valid()
      ensures autoColor == TuningSwitch(value, false)
      ensures old(bitmap).Some? && autoColor && !lavaLampEnabled ==>
                && bitmap == old(bitmap) && color == old(color) && paintColor == old(paintColor)
                && shouldAnimate == old(shouldAnimate)
                && events == Record(old(events), PaletteRequested(old(bitmap).value))
      ensures !(old(bitmap).Some? && autoColor && !lavaLampEnabled) ==> bitmap.None? && Recolored(TRANSPARENT)
    {
      autoColor := ParseSwitch(value, false);
      ReapplyAutoColor();
    }

    /**
      The second half of the autocolor key: with a bitmap, autocolor on and the
      lava lamp off, a palette is requested; otherwise a bitmap is dropped
      (which resets the colour) or, with none, the colour is reset.
     */
    method ReapplyAutoColor()
      requires Valid()
      modifies this`bitmap, this`color, this`paintColor, this`shouldAnimate, this`events
      ensures Valid()
      ensures old(bitmap).Some? && autoColor && !lavaLampEnabled ==>
                && bitmap == old(bitmap) && color == old(color) && paintColor == old(paintColor)
                && shouldAnimate == old(shouldAnimate)
                && events == Record(old(events), PaletteRequested(old(bitmap).value))
      ensures !(old(bitmap).Some? && autoColor && !lavaLampEnabled) ==> bitmap.None? && Recolored(TRANSPARENT)
    {
      if bitmap.Some? && autoColor && !lavaLampEnabled {
        events := Record(events, PaletteRequested(bitmap.value));
      } else if bitmap.Some? {
        SetBitmap(None);
      } else {
        SetColor(TRANSPARENT);
      }
    }

    /** The lava lamp key: an unparsable value means enabled. */
    method TuneLavaLampEnabled(value: Option<string>)
      requires Valid()
      modifies this`lavaLampEnabled
      ensures Valid()
      ensures lavaLampEnabled == TuningSwitch(value, true)
    {
      lavaLampEnabled := ParseSwitch(value, true);
    }

    /** The lava lamp speed key (default 10000 ms), passed on to the lava lamp. */
    method TuneLavaLampSpeed(value: Option<string>)
      requires Valid()
      modifies this`lavaLampSpeed, this`events
      ensures Valid()
      ensures lavaLampSpeed == TuningInt(value, DEFAULT_LAVA_LAMP_SPEED)
      ensures events == Record(old(events), LavaLampAnimationTime(lavaLampSpeed))
    {
      lavaLampSpeed := ParseTuningInt(value, DEFAULT_LAVA_LAMP_SPEED);
      events := Record(events, LavaLampAnimationTime(lavaLampSpeed));
    }

    /** The fudge factor key (default 16). */
    method TuneFudgeFactor(value: Option<string>)
      requires Valid()
      modifies this`dbFuzzFactor
      ensures Valid()
      ensures dbFuzzFactor == TuningInt(value, DEFAULT_FUDGE_FACTOR)
    {
      dbFuzzFactor := ParseTuningInt(value, DEFAULT_FUDGE_FACTOR);
    }

    /** The opacity key (default 140); the stored colour keeps its alpha until the next setColor. */
    method TuneOpacity(value: Option<string>)
      requires Valid()
      modifies this`opacity
      ensures Valid()
      ensures opacity == TuningInt(value, DEFAULT_OPACITY)
    {
      opacity := ParseTuningInt(value, DEFAULT_OPACITY);
    }
  }
}
