/** One tick of the controller: the whole view-state update run by the
    16 ms timer, from signal arbitration to the output rectangle. */
module ViewUpdate {
  import opened Options
  import opened Geometry
  import opened Ticks
  import opened ControllerState
  import opened Arbitration
  import opened Smoothing
  import opened Zones

  /** The cursor fields of the view state: visible at the mapped pointer
      when the pointer is on the source monitor. */
  function CursorView(s: State): (v: ViewState)
    ensures v.cursorVisible <==> ScreenToSource(s.source, s.mousePos).Some?
    ensures v.cursorVisible ==> FPoint(v.cursorX, v.cursorY) == ScreenToSource(s.source, s.mousePos).value
    ensures v.invertColors == s.invertColors
  {
    match ScreenToSource(s.source, s.mousePos)
    case None => s.view.(cursorVisible := false, cursorX := 0.0, cursorY := 0.0, invertColors := s.invertColors)
    case Some(p) => s.view.(cursorVisible := true, cursorX := p.x, cursorY := p.y, invertColors := s.invertColors)
  }

  /** The controller state after arbitration and the End-key stages of a
      tick, before any movement. */
  function Prepare(s: State, v: View, terminalRect: Option<Rect>, now: nat): (r: (State, Selection))
    ensures var (s2, sel) := r;
      && s2 == s.(lastCaretTargetTick := sel.caretTargetTick, puttyAnchor := s2.puttyAnchor, endAlignment := s2.endAlignment)
      && sel == Arbitrate(s, now, Suppressed(s, now), FPoint(v.fw / 2.0, v.fh / 2.0))
      && (!s.endKeyDown ==> !s2.endAlignment)
      && (s2.endAlignment ==> s.endKeyDown && (s.endAlignment || (Elapsed(now, s.endPressTick) >= EndHoldThresholdMs && s2.puttyAnchor.Some?)))
    // the anchor survives only while End is held or its ignore window runs,
    // and is captured afresh while End is held or alignment is on
    ensures var s2 := r.0;
      var anchor0 := if !s.endKeyDown && now >= s.endIgnoreUntil then None else s.puttyAnchor;
      && s2.puttyAnchor == (if s.endKeyDown || s.endAlignment then CaptureTerminalAnchor(s.source, terminalRect, anchor0) else anchor0)
      && s2.endAlignment == AlignmentAfter(s.endKeyDown, s.endAlignment, Elapsed(now, s.endPressTick), s2.puttyAnchor)
    ensures s.endKeyDown && Elapsed(now, s.endPressTick) >= EndHoldThresholdMs && r.0.puttyAnchor.Some? ==> r.0.endAlignment
  {
    var anchor0 := if !s.endKeyDown && now >= s.endIgnoreUntil then None else s.puttyAnchor;
    var sel := Arbitrate(s, now, Suppressed(s, now), FPoint(v.fw / 2.0, v.fh / 2.0));
    var anchor := if s.endKeyDown || s.endAlignment then CaptureTerminalAnchor(s.source, terminalRect, anchor0) else anchor0;
    var aligned := AlignmentAfter(s.endKeyDown, s.endAlignment, Elapsed(now, s.endPressTick), anchor);
    (s.(lastCaretTargetTick := sel.caretTargetTick, puttyAnchor := anchor, endAlignment := aligned), sel)
  }

  /** The movement stage: terminal alignment when it is on, otherwise the
      smoother; then the messenger-zone clamp. */
  function Position(s2: State, sel: Selection, v: View, now: nat): (r: State)
    requires v.WellFormed()
    ensures r == s2.(center := r.center, previous := r.previous, previousSavedTick := r.previousSavedTick,
                     click := r.click, clickLock := r.clickLock, zone := r.zone)
    ensures r.center.Some?
    ensures r.zone.None? || r.zone == s2.zone
    ensures s2.endAlignment && s2.puttyAnchor.Some? ==>
      r.center == Some(AlignedCenter(s2.puttyAnchor.value, v)) && r.zone.None?
    ensures !(s2.endAlignment && s2.puttyAnchor.Some?) ==> r == ClampToMessengerZone(Move(s2, sel, now), v)
    ensures r.zone.Some? ==>
      var g := ZoneRange(r.zone.value.rect, v);
      g.left <= r.center.value.x <= g.right && g.top <= r.center.value.y <= g.bottom
  {
    var s3 := if s2.endAlignment && s2.puttyAnchor.Some?
      then s2.(center := Some(AlignedCenter(s2.puttyAnchor.value, v)), zone := None)
      else Move(s2, sel, now);
    ClampToMessengerZone(s3, v)
  }

  /** The last stage: the unconditional clamp of the center into the valid
      range, and the output rectangle with its edges rounded outward. */
  function Finish(s4: State, cursor: ViewState, v: View, frame: Frame, zoom: real): (r: State)
    requires MinZoom <= zoom <= MaxZoom && v == ViewFor(frame, zoom)
    requires s4.center.Some?
    ensures r == s4.(center := r.center, view := r.view)
    ensures r.center.Some? && v.CenterInRange(r.center.value)
    ensures v.CenterInRange(s4.center.value) ==> r.center == s4.center
    ensures RegionInFrame(r.view.region, frame)
    ensures r.view.region.left as real <= r.center.value.x - v.HalfW()
    ensures r.center.value.x + v.HalfW() <= r.view.region.right as real
    ensures r.view.region.top as real <= r.center.value.y - v.HalfH()
    ensures r.center.value.y + v.HalfH() <= r.view.region.bottom as real
    ensures r.view == cursor.(region := r.view.region, zoom := zoom)
  {
    var c := ClampCenter(s4.center.value, v);
    RegionOfClampedCenterInFrame(c, frame, zoom);
    s4.(center := Some(c), view := cursor.(region := SourceRegion(c, v), zoom := zoom))
  }

  /** One timer tick. Without a source monitor or a frame nothing changes.
      Otherwise the state afterwards has a center that keeps the whole view
      on the frame, and the output rectangle lies in the frame and covers
      the view. `terminalRect` is the foreground window's rectangle when it
      is a terminal window. */
  function Tick(s: State, frame: Frame, terminalRect: Option<Rect>, now: nat): (r: State)
    requires Valid(s)
    ensures Valid(r) && r.zoom == s.zoom && r.mode == s.mode && r.source == s.source
    ensures s.source.None? || frame.width == 0 || frame.height == 0 ==> r == s
    ensures s.source.Some? && frame.width > 0 && frame.height > 0 ==>
      var v := ViewFor(frame, s.zoom);
      && r.center.Some?
      && v.CenterInRange(r.center.value)
      && RegionInFrame(r.view.region, frame)
      && r.view.region.left as real <= r.center.value.x - v.HalfW()
      && r.center.value.x + v.HalfW() <= r.view.region.right as real
      && r.view.region.top as real <= r.center.value.y - v.HalfH()
      && r.center.value.y + v.HalfH() <= r.view.region.bottom as real
      && r.view.zoom == s.zoom
      && (r.view.cursorVisible <==> ScreenToSource(s.source, s.mousePos).Some?)
      && (r.zone.None? || r.zone == s.zone)
      && (!s.endKeyDown ==> !r.endAlignment)
  {
    if s.source.None? || frame.width == 0 || frame.height == 0 then s
    else
      var v := ViewFor(frame, s.zoom);
      var (s2, sel) := Prepare(s, v, terminalRect, now);
      Finish(Position(s2, sel, v, now), CursorView(s), v, frame, s.zoom)
  }

  /** The timer handler: nothing happens while the magnifier is stopped or
      when no frame could be acquired (`frame` is None); otherwise one tick
      runs on the acquired frame. */
  function Update(s: State, frame: Option<Frame>, terminalRect: Option<Rect>, now: nat): (r: State)
    requires Valid(s)
    ensures Valid(r)
    ensures !s.active || frame.None? ==> r == s
    ensures s.active && frame.Some? ==> r == Tick(s, frame.value, terminalRect, now)
    ensures r.active == s.active
  {
    if !s.active then s
    else match frame
      case None => s
      case Some(f) => Tick(s, f, terminalRect, now)
  }

  /** A live messenger zone holds the center: after a tick that keeps the
      zone, the center lies inside the zone rectangle. */
  lemma TickKeepsCenterInZone(s: State, frame: Frame, terminalRect: Option<Rect>, now: nat)
    requires Valid(s) && s.source.Some? && frame.width > 0 && frame.height > 0
    requires Tick(s, frame, terminalRect, now).zone.Some?
    ensures var r := Tick(s, frame, terminalRect, now);
      var z := r.zone.value.rect;
      z.left <= r.center.value.x <= z.right && z.top <= r.center.value.y <= z.bottom
  {
    var v := ViewFor(frame, s.zoom);
    var (s2, sel) := Prepare(s, v, terminalRect, now);
    var s4 := Position(s2, sel, v, now);
    assert v.CenterInRange(s4.center.value);
    assert ClampCenter(s4.center.value, v) == s4.center.value;
  }

  /** While terminal alignment is on (End held at least 1000 ms over a
      terminal window whose corner maps), the view's left edge sits at the
      anchor's x and its bottom edge at the anchor's y, each clamped to the
      frame, and any messenger zone is gone. */
  lemma TickAlignsToTerminal(s: State, frame: Frame, terminalRect: Option<Rect>, now: nat)
    requires Valid(s) && s.source.Some? && frame.width > 0 && frame.height > 0
    requires Tick(s, frame, terminalRect, now).endAlignment && Tick(s, frame, terminalRect, now).puttyAnchor.Some?
    ensures var r := Tick(s, frame, terminalRect, now);
      var v := ViewFor(frame, s.zoom);
      && s.endKeyDown
      && r.center.value.x - v.HalfW() == Clamp(r.puttyAnchor.value.x, 0.0, v.fw - v.vw)
      && r.center.value.y + v.HalfH() == Clamp(r.puttyAnchor.value.y, v.vh, v.fh)
      && r.zone.None?
  {
    var v := ViewFor(frame, s.zoom);
    var (s2, sel) := Prepare(s, v, terminalRect, now);
    var s4 := Position(s2, sel, v, now);
    assert s4.center == Some(AlignedCenter(s2.puttyAnchor.value, v));
    assert ClampCenter(s4.center.value, v) == s4.center.value;
  }

  /** Holding End for 1000 ms over a terminal window whose bottom-left
      corner maps turns terminal alignment on: the anchor is that mapped
      corner, and the view's left and bottom edges move to it. */
  lemma TickActivatesAlignment(s: State, frame: Frame, terminalRect: Option<Rect>, now: nat)
    requires Valid(s) && s.source.Some? && frame.width > 0 && frame.height > 0
    requires s.endKeyDown && Elapsed(now, s.endPressTick) >= EndHoldThresholdMs
    requires terminalRect.Some?
    requires ScreenToSource(s.source, TerminalCorner(terminalRect.value)).Some?
    ensures var r := Tick(s, frame, terminalRect, now);
      var a := ScreenToSource(s.source, TerminalCorner(terminalRect.value)).value;
      && r.endAlignment && r.puttyAnchor == Some(a)
      && r.center == Some(AlignedCenter(a, ViewFor(frame, s.zoom)))
  {
    var v := ViewFor(frame, s.zoom);
    var (s2, sel) := Prepare(s, v, terminalRect, now);
    var a := ScreenToSource(s.source, TerminalCorner(terminalRect.value)).value;
    assert s2.puttyAnchor == Some(a) && s2.endAlignment;
    var s4 := Position(s2, sel, v, now);
    assert s4.center == Some(AlignedCenter(a, v));
    assert ClampCenter(s4.center.value, v) == s4.center.value;
  }

  /** Alignment does not turn on early: while it is off and End has been
      held less than 1000 ms (or is up), a tick leaves it off. */
  lemma TickAlignmentWaitsForHold(s: State, frame: Frame, terminalRect: Option<Rect>, now: nat)
    requires Valid(s) && !s.endAlignment
    requires !s.endKeyDown || Elapsed(now, s.endPressTick) < EndHoldThresholdMs
    ensures !Tick(s, frame, terminalRect, now).endAlignment
  {
    if s.source.Some? && frame.width > 0 && frame.height > 0 {
      var v := ViewFor(frame, s.zoom);
      var (s2, sel) := Prepare(s, v, terminalRect, now);
      assert !s2.endAlignment;
    }
  }

  /** The view follows the caret: with End up, no signal suppression and no
      messenger zone, a tick in Auto or Caret mode with a fresh caret on the
      source monitor centers on the caret target (the mapped caret shifted
      right by the caret width), clamped to keep the view on the frame. Only
      a first snap without a center goes through the click limiter, so that
      case needs the lock to be off. */
  lemma TickFollowsCaret(s: State, frame: Frame, terminalRect: Option<Rect>, now: nat)
    requires Valid(s) && s.source.Some? && frame.width > 0 && frame.height > 0
    requires !s.endKeyDown && !Suppressed(s, now) && s.zone.None?
    requires s.mode == Auto || s.mode == Caret
    requires Elapsed(now, s.lastCaretTick) <= CaretFollowTimeoutMs
    requires ScreenToSource(s.source, s.caretPos).Some?
    requires s.center.Some? || !s.clickLock
    ensures var v := ViewFor(frame, s.zoom);
      var p := ScreenToSource(s.source, s.caretPos).value;
      Tick(s, frame, terminalRect, now).center == Some(ClampCenter(FPoint(p.x + CaretOffsetX, p.y), v))
  {
    var v := ViewFor(frame, s.zoom);
    var (s2, sel) := Prepare(s, v, terminalRect, now);
    assert sel.kind == CaretTarget;
    assert !s2.endAlignment && s2.zone.None? && s2.center == s.center && s2.clickLock == s.clickLock;
    var s3 := Move(s2, sel, now);
    assert s3.center == Some(sel.target);
    assert Position(s2, sel, v, now).center == Some(sel.target);
  }

  /** The view glides toward a pointer or focus target: with End up, no
      suppression, no zone and no click lock, a tick that selects such a
      target outside the 16 px dead zone moves the center 45% of the way to
      it, then clamps it to keep the view on the frame. */
  lemma TickGlidesToTarget(s: State, frame: Frame, terminalRect: Option<Rect>, now: nat)
    requires Valid(s) && s.source.Some? && frame.width > 0 && frame.height > 0
    requires !s.endKeyDown && !Suppressed(s, now) && s.zone.None?
    requires s.center.Some? && !s.clickLock
    requires var sel := Arbitrate(s, now, false, FPoint(frame.width as real / 2.0, frame.height as real / 2.0));
      (sel.kind == MouseTarget || sel.kind == FocusTarget) && OutsideDeadZone(s.center.value, sel.target)
    ensures var v := ViewFor(frame, s.zoom);
      var t := Arbitrate(s, now, false, FPoint(frame.width as real / 2.0, frame.height as real / 2.0)).target;
      var c := s.center.value;
      Tick(s, frame, terminalRect, now).center
        == Some(ClampCenter(FPoint(c.x + (t.x - c.x) * SmoothingFactor, c.y + (t.y - c.y) * SmoothingFactor), v))
  {
    var v := ViewFor(frame, s.zoom);
    var (s2, sel) := Prepare(s, v, terminalRect, now);
    assert !s2.endAlignment && s2.zone.None? && s2.center == s.center && !s2.clickLock;
    var c := s.center.value;
    var s3 := Move(s2, sel, now);
    assert s3 == Glide(s2, sel.target, now);
    assert !RecordJump(s2, sel.target, now).clickLock;
    assert s3.center == Some(FPoint(c.x + (sel.target.x - c.x) * SmoothingFactor, c.y + (sel.target.y - c.y) * SmoothingFactor));
  }

  /** After End is released, ticks inside the 500 ms ignore window take no
      signal as a target. */
  lemma ReleaseSuppressesSignals(s: State, now: nat, t: nat, middle: FPoint)
    requires s.endKeyDown && now <= t < now + EndIgnoreCursorMs
    ensures var r := OnEndKeyUp(s, now);
      Suppressed(r, t) && Arbitrate(r, t, Suppressed(r, t), middle).kind == NoTarget
  {
  }

  // ------------------------------------------------------------- scenarios

  /** A 1920x1080 monitor at the origin with scale 1. */
  const FullHd: Monitor := Monitor(Rect(0, 0, 1920, 1080), Rect(0, 0, 1920, 1040), 1.0, true, "\\\\.\\DISPLAY1")

  /** Frame 1920x1080, zoom 2, no center, Auto, a fresh caret at (500, 500):
      the center snaps to (504, 500) and the view is (24,230)-(984,770). */
  lemma FirstCaretTickScenario(s: State)
    requires s.source == Some(FullHd) && s.zoom == 2.0 && s.mode == Auto
    requires s.center.None? && !s.clickLock && !s.endKeyDown && !s.endAlignment && s.endIgnoreUntil == 0
    requires s.zone.None?
    requires s.caretPos == Point(500, 500) && s.lastCaretTick == 1000
    ensures var r := Tick(s, Frame(1920, 1080), None, 1100);
      r.center == Some(FPoint(504.0, 500.0)) && r.view.region == Rect(24, 230, 984, 770)
  {
    var frame := Frame(1920, 1080);
    var v := ViewFor(frame, 2.0);
    assert v == View(1920.0, 1080.0, 960.0, 540.0);
    var sel := Arbitrate(s, 1100, false, FPoint(960.0, 540.0));
    assert sel.kind == CaretTarget && sel.target == FPoint(504.0, 500.0);
    var (s2, sel2) := Prepare(s, v, None, 1100);
    assert sel2 == sel;
    assert !s2.endAlignment && s2.center.None? && !s2.clickLock;
    var s4 := Position(s2, sel2, v, 1100);
    assert s4.center == Some(FPoint(504.0, 500.0));
    assert SourceRegion(FPoint(504.0, 500.0), v) == Rect(24, 230, 984, 770);
  }

  /** End held 1200 ms over a terminal whose bottom-left maps to (100, 1000),
      zoom 2, frame 1920x1080: left edge 100, bottom edge 1000, center
      (580, 730). */
  lemma TerminalScenario(s: State)
    requires s.source == Some(FullHd) && s.zoom == 2.0
    requires s.endKeyDown && s.endPressTick == 1000 && s.zone.None?
    ensures var r := Tick(s, Frame(1920, 1080), Some(Rect(100, 600, 900, 1001)), 2200);
      r.endAlignment && r.center == Some(FPoint(580.0, 730.0))
  {
    var frame := Frame(1920, 1080);
    var v := ViewFor(frame, 2.0);
    assert v == View(1920.0, 1080.0, 960.0, 540.0);
    var (s2, sel) := Prepare(s, v, Some(Rect(100, 600, 900, 1001)), 2200);
    assert s2.puttyAnchor == Some(FPoint(100.0, 1000.0));
    assert s2.endAlignment;
    assert AlignedCenter(FPoint(100.0, 1000.0), v) == FPoint(580.0, 730.0);
  }
}
