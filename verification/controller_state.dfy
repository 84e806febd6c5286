/** The state the viewport controller keeps between ticks and events, its
    tuning constants, its initial value, and the view geometry derived from
    the frame size and the zoom factor. */
module ControllerState {
  import opened Options
  import opened Geometry

  const MinZoom: real := 1.0
  const MaxZoom: real := 12.0
  const ZoomStep: real := 0.25
  const CaretFollowTimeoutMs: nat := 600
  const MouseFollowTimeoutMs: nat := 160
  const FocusFollowTimeoutMs: nat := 900
  const PreviousCenterRecordThreshold: real := 160.0
  const PreviousCenterRecordCooldownMs: nat := 500
  const ClickLimitPixelsPerSecond: real := 50.0
  const EndHoldThresholdMs: nat := 1000
  const EndIgnoreCursorMs: nat := 500
  const DeadZonePixels: real := 16.0
  const SmoothingFactor: real := 0.45
  /** A caret target is shifted right so the view includes the caret's width. */
  const CaretOffsetX: real := 4.0
  /** How far (screen pixels, per axis) the pointer may stray from the
      click that created a messenger zone before the zone ends. */
  const MessengerAnchorSlack: nat := 10

  datatype TrackingMode = Auto | Caret | Mouse | Focus | Manual

  /** The captured frame's pixel size; zero means there is no frame yet. */
  datatype Frame = Frame(width: nat, height: nat)

  /** The last left click: where it happened on screen, when, and its
      source-frame position once it has been resolved. */
  datatype Click = Click(point: Point, tick: nat, source: Option<FPoint>)

  /** The bottom input strip of a messaging application in frame space,
      and the screen point of the click that created it. */
  datatype MessengerZone = MessengerZone(rect: FRect, anchor: Point)

  /** What the renderer receives each tick. */
  datatype ViewState = ViewState(
    region: Rect,
    zoom: real,
    cursorVisible: bool,
    cursorX: real,
    cursorY: real,
    invertColors: bool)

  datatype State = State(
    source: Option<Monitor>,      // the selected source monitor, None until selection
    active: bool,                 // the magnifier is shown
    zoom: real,
    mode: TrackingMode,
    invertColors: bool,
    mousePos: Point,
    caretPos: Point,
    focusRect: Rect,
    lastCaretTick: nat,
    lastCaretTargetTick: nat,
    lastMouseTick: nat,
    lastFocusTick: nat,
    center: Option<FPoint>,
    previous: Option<FPoint>,
    previousSavedTick: nat,
    click: Option<Click>,
    clickLock: bool,
    zone: Option<MessengerZone>,
    endKeyDown: bool,
    endAlignment: bool,
    endPressTick: nat,
    endIgnoreUntil: nat,
    puttyAnchor: Option<FPoint>,
    view: ViewState)

  /** The invariant every entry point keeps: the zoom factor is clamped
      to `[MinZoom, MaxZoom]`. */
  predicate Valid(s: State) {
    MinZoom <= s.zoom <= MaxZoom
  }

  /** The controller as the application object is constructed: no monitors
      selected, zoom 2, no center, no history, no click, no zone, End key
      up. The tracking mode is the configured one. */
  function Initial(mode: TrackingMode): (s: State)
    ensures Valid(s)
    ensures s.source.None? && s.center.None? && s.previous.None? && s.click.None?
    ensures !s.clickLock && s.zone.None? && !s.endKeyDown && !s.endAlignment && s.puttyAnchor.None?
  {
    State(
      None, false, 2.0, mode, false,
      Point(0, 0), Point(0, 0), Rect(0, 0, 0, 0),
      0, 0, 0, 0,
      None, None, 0,
      None, false,
      None,
      false, false, 0, 0,
      None,
      ViewState(Rect(0, 0, 0, 0), 2.0, false, 0.0, 0.0, false))
  }

  /** Until a source monitor is selected no screen point can be mapped, so
      no signal can drive the view. */
  lemma InitialMapsNothing(mode: TrackingMode, p: Point)
    ensures ScreenToSource(Initial(mode).source, p).None?
  {
  }

  /** Frame and view extents of one tick, in frame pixels. */
  datatype View = View(fw: real, fh: real, vw: real, vh: real) {
    function HalfW(): real { vw / 2.0 }
    function HalfH(): real { vh / 2.0 }

    predicate WellFormed() {
      0.0 <= vw <= fw && 0.0 <= vh <= fh
    }

    /** The centers for which the whole view lies inside the frame. */
    predicate CenterInRange(c: FPoint) {
      HalfW() <= c.x <= fw - HalfW() && HalfH() <= c.y <= fh - HalfH()
    }
  }

  /** The view extent for a frame: the frame divided by the zoom, never
      larger than the frame. */
  function ViewFor(frame: Frame, zoom: real): (v: View)
    requires MinZoom <= zoom <= MaxZoom
    ensures v.WellFormed()
    ensures v.fw == frame.width as real && v.fh == frame.height as real
    ensures v.vw * zoom == v.fw && v.vh * zoom == v.fh
  {
    var fw := frame.width as real;
    var fh := frame.height as real;
    View(fw, fh, MinReal(fw / zoom, fw), MinReal(fh / zoom, fh))
  }

  /** The final clamp: moves the center the least distance that keeps the
      view inside the frame. */
  function ClampCenter(c: FPoint, v: View): (r: FPoint)
    requires v.WellFormed()
    ensures v.CenterInRange(r)
    ensures v.CenterInRange(c) ==> r == c
  {
    FPoint(Clamp(c.x, v.HalfW(), v.fw - v.HalfW()), Clamp(c.y, v.HalfH(), v.fh - v.HalfH()))
  }

  /** The integer source rectangle handed to the renderer: edges rounded
      outward (floor / ceil) so it covers the intended real region. */
  function SourceRegion(c: FPoint, v: View): (r: Rect)
    ensures r.left as real <= c.x - v.HalfW() && c.x - v.HalfW() + v.vw <= r.right as real
    ensures r.top as real <= c.y - v.HalfH() && c.y - v.HalfH() + v.vh <= r.bottom as real
    ensures v.CenterInRange(c) ==> 0 <= r.left && 0 <= r.top
    ensures v.CenterInRange(c) && v.fw == v.fw.Floor as real ==> r.right <= v.fw.Floor
    ensures v.CenterInRange(c) && v.fh == v.fh.Floor as real ==> r.bottom <= v.fh.Floor
  {
    var left := c.x - v.HalfW();
    var top := c.y - v.HalfH();
    Rect(left.Floor, top.Floor, Ceil(left + v.vw), Ceil(top + v.vh))
  }

  /** The region lies in `[0, width] x [0, height]` of the frame. */
  predicate RegionInFrame(r: Rect, frame: Frame) {
    0 <= r.left <= r.right <= frame.width && 0 <= r.top <= r.bottom <= frame.height
  }

  lemma RegionOfClampedCenterInFrame(c: FPoint, frame: Frame, zoom: real)
    requires MinZoom <= zoom <= MaxZoom
    requires ViewFor(frame, zoom).CenterInRange(c)
    ensures RegionInFrame(SourceRegion(c, ViewFor(frame, zoom)), frame)
  {
    var v := ViewFor(frame, zoom);
    assert v.fw.Floor == frame.width;
    assert v.fh.Floor == frame.height;
  }
}
