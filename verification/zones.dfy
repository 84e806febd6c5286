/** The two zone overrides and the events that drive them: terminal
    bottom-left alignment (End key held over a terminal window) and the
    messenger input-strip zone (created by a click, ended by pointer
    movement). */
module Zones {
  import opened Options
  import opened Geometry
  import opened Ticks
  import opened ControllerState

  // ---------------------------------------------------------------- End key

  /** End pressed: a fresh press starts a new hold, clears alignment, the
      ignore window and the captured anchor. Auto-repeat while held changes
      nothing. */
  function OnEndKeyDown(s: State, now: nat): (r: State)
    ensures s.endKeyDown ==> r == s
    ensures !s.endKeyDown ==>
      && r.endKeyDown && !r.endAlignment && r.endPressTick == now && r.endIgnoreUntil == 0 && r.puttyAnchor.None?
      && r == s.(endKeyDown := true, endAlignment := false, endPressTick := now, endIgnoreUntil := 0, puttyAnchor := None)
  {
    if !s.endKeyDown then
      s.(endKeyDown := true, endPressTick := now, endAlignment := false, endIgnoreUntil := 0, puttyAnchor := None)
    else s
  }

  /** End released: alignment ends at once and signals are ignored for the
      next 500 ms. A release without a press changes nothing. */
  function OnEndKeyUp(s: State, now: nat): (r: State)
    ensures !s.endKeyDown ==> r == s
    ensures s.endKeyDown ==>
      && !r.endKeyDown && !r.endAlignment
      && r.endIgnoreUntil == now + EndIgnoreCursorMs
      && r == s.(endKeyDown := false, endAlignment := false, endIgnoreUntil := r.endIgnoreUntil)
  {
    if s.endKeyDown then
      s.(endKeyDown := false, endAlignment := false, endIgnoreUntil := now + EndIgnoreCursorMs)
    else s
  }

  /** The terminal window's bottom-left corner: its last row of pixels, or
      its top row when the window has no height. */
  function TerminalCorner(w: Rect): Point {
    Point(w.left, MaxInt(w.top, w.bottom - 1))
  }

  /** The terminal anchor is resampled while End is held or alignment is
      active: the bottom-left pixel of the matching foreground window,
      mapped to the frame. A window that does not match, or a corner that
      does not map, leaves the previous anchor. */
  function CaptureTerminalAnchor(source: Option<Monitor>, terminalRect: Option<Rect>, anchor: Option<FPoint>): (r: Option<FPoint>)
    ensures terminalRect.None? ==> r == anchor
    ensures terminalRect.Some? ==>
      var w := terminalRect.value;
      var corner := TerminalCorner(w);
      r == (if ScreenToSource(source, corner).Some? then ScreenToSource(source, corner) else anchor)
  {
    match terminalRect
    case None => anchor
    case Some(w) =>
      var corner := TerminalCorner(w);
      var mapped := ScreenToSource(source, corner);
      if mapped.Some? then mapped else anchor
  }

  /** Whether terminal alignment is on after this tick: it turns on only
      while End is held, after a hold of 1000 ms, with an anchor; it turns
      off as soon as End is up. */
  function AlignmentAfter(endKeyDown: bool, aligned: bool, heldMs: nat, anchor: Option<FPoint>): (r: bool)
    ensures !endKeyDown ==> !r
    ensures endKeyDown && aligned ==> r
    ensures endKeyDown && !aligned ==> (r <==> heldMs >= EndHoldThresholdMs && anchor.Some?)
  {
    if endKeyDown then aligned || (heldMs >= EndHoldThresholdMs && anchor.Some?)
    else false
  }

  /** The center that puts the view's left edge at the anchor's x and its
      bottom edge at the anchor's y, each clamped so the view stays on the
      frame. */
  function AlignedCenter(anchor: FPoint, v: View): (c: FPoint)
    requires v.WellFormed()
    ensures v.CenterInRange(c)
    ensures c.x - v.HalfW() == Clamp(anchor.x, 0.0, v.fw - v.vw)
    ensures c.y + v.HalfH() == Clamp(anchor.y, v.vh, v.fh)
    ensures 0.0 <= anchor.x <= v.fw - v.vw ==> c.x - v.HalfW() == anchor.x
    ensures v.vh <= anchor.y <= v.fh ==> c.y + v.HalfH() == anchor.y
  {
    var left := Clamp(anchor.x, 0.0, v.fw - v.vw);
    var bottom := Clamp(anchor.y, v.vh, v.fh);
    FPoint(left + v.HalfW(), bottom - v.HalfH())
  }

  // ----------------------------------------------------------- messenger zone

  /** The range the messenger zone allows on each axis: the zone
      intersected with the centers that keep the view on the frame. */
  function ZoneRange(z: FRect, v: View): (g: FRect)
    ensures g.left >= z.left && g.left >= v.HalfW() && (g.left == z.left || g.left == v.HalfW())
    ensures g.top >= z.top && g.top >= v.HalfH() && (g.top == z.top || g.top == v.HalfH())
    ensures g.right <= z.right && g.right <= v.fw - v.HalfW() && (g.right == z.right || g.right == v.fw - v.HalfW())
    ensures g.bottom <= z.bottom && g.bottom <= v.fh - v.HalfH() && (g.bottom == z.bottom || g.bottom == v.fh - v.HalfH())
  {
    FRect(MaxReal(z.left, v.HalfW()), MaxReal(z.top, v.HalfH()),
          MinReal(z.right, v.fw - v.HalfW()), MinReal(z.bottom, v.fh - v.HalfH()))
  }

  /** The zone range is exactly the zone intersected with the centers that
      keep the view on the frame. */
  lemma ZoneRangeIsIntersection(z: FRect, v: View, c: FPoint)
    ensures var g := ZoneRange(z, v);
      (g.left <= c.x <= g.right && g.top <= c.y <= g.bottom)
      <==> (z.left <= c.x <= z.right && z.top <= c.y <= z.bottom && v.CenterInRange(c))
  {
  }

  /** While a messenger zone is active the center is clamped into the zone
      intersected with the valid center range; when that intersection is
      empty on either axis the zone is dropped and the center kept. */
  function ClampToMessengerZone(s: State, v: View): (r: State)
    ensures s.zone.None? ==> r == s
    ensures r.zone.None? || r.zone == s.zone
    ensures s.zone.Some? ==>
      var g := ZoneRange(s.zone.value.rect, v);
      if g.left <= g.right && g.top <= g.bottom then
        && r.zone == s.zone
        && r.center.Some? == s.center.Some?
        && (r.center.Some? ==>
              && g.left <= r.center.value.x <= g.right && g.top <= r.center.value.y <= g.bottom
              && (g.left <= s.center.value.x <= g.right && g.top <= s.center.value.y <= g.bottom ==> r.center == s.center))
        && r == s.(center := r.center)
      else r == s.(zone := None)
  {
    match s.zone
    case None => s
    case Some(z) =>
      var g := ZoneRange(z.rect, v);
      if g.left <= g.right && g.top <= g.bottom then
        match s.center
        case None => s
        case Some(c) => s.(center := Some(FPoint(Clamp(c.x, g.left, g.right), Clamp(c.y, g.top, g.bottom))))
      else s.(zone := None)
  }

  /** The top screen row of the bottom strip: the last tenth of the
      monitor height, at least one row. */
  function StripTop(b: Rect): (t: int)
    ensures b.Height() > 0 ==> b.top <= t < b.bottom
  {
    MaxInt(b.bottom - MaxInt(LRound(b.Height() as real * 0.1), 1), b.top)
  }

  /** The left screen column of the zone: a quarter of the width in from the
      left edge, kept on the monitor. */
  function ZoneLeft(b: Rect): (l: int)
    requires b.Width() > 0
    ensures b.left <= l < b.right
  {
    ClampInt(b.left + LRound(b.Width() as real * 0.25), b.left, b.right - 1)
  }

  /** The bottom input strip of a messenger window on the source monitor
      that a click at `p` creates, in frame space. The click may land
      anywhere across the full width of the bottom strip; the zone itself
      spans only the right three quarters. */
  function MessengerZoneFor(m: Monitor, p: Point): (r: Option<FRect>)
    ensures r.Some? ==>
      var b := m.bounds;
      b.Width() > 0 && b.Height() > 0 && StripTop(b) <= p.y < b.bottom && b.left <= p.x < b.right
  {
    var b := m.bounds;
    if b.Width() > 0 && b.Height() > 0 then
      var stripTop := StripTop(b);
      if stripTop <= p.y < b.bottom && b.left <= p.x < b.right then
        var zone := Rect(ZoneLeft(b), stripTop, b.right, b.bottom);
        if zone.right > zone.left && zone.bottom > zone.top then
          var topLeft := ScreenToSource(Some(m), Point(zone.left, zone.top));
          var bottomRight := ScreenToSource(Some(m), Point(zone.right - 1, zone.bottom - 1));
          if topLeft.Some? && bottomRight.Some? then
            Some(FRect(topLeft.value.x, topLeft.value.y, bottomRight.value.x, bottomRight.value.y))
          else None
        else None
      else None
    else None
  }

  /** A zone exists exactly when the monitor is non-empty and the click is
      inside its bottom strip; the guards on the zone rectangle and on
      mapping its corners never fail. The zone is the screen rectangle
      `[ZoneLeft, right) x [StripTop, bottom)` mapped pixel by pixel. */
  lemma MessengerZoneExactly(m: Monitor, p: Point)
    ensures var b := m.bounds;
      MessengerZoneFor(m, p).Some? <==>
        b.Width() > 0 && b.Height() > 0 && StripTop(b) <= p.y < b.bottom && b.left <= p.x < b.right
    ensures var b := m.bounds;
      MessengerZoneFor(m, p).Some? ==>
        MessengerZoneFor(m, p).value == FRect(
          (ZoneLeft(b) - b.left) as real * m.scale, (StripTop(b) - b.top) as real * m.scale,
          (b.right - 1 - b.left) as real * m.scale, (b.bottom - 1 - b.top) as real * m.scale)
  {
    var b := m.bounds;
    if b.Width() > 0 && b.Height() > 0 && StripTop(b) <= p.y < b.bottom && b.left <= p.x < b.right {
      assert PointInRect(b, Point(ZoneLeft(b), StripTop(b)));
      assert PointInRect(b, Point(b.right - 1, b.bottom - 1));
    }
  }

  /** The strip test uses the whole monitor width: a click in the bottom
      strip left of the zone's left column still creates the zone, and the
      click then lies outside the zone it created. */
  lemma MessengerClickLeftOfZone(m: Monitor, p: Point)
    requires m.scale > 0.0 && m.bounds.Width() > 0 && m.bounds.Height() > 0
    requires StripTop(m.bounds) <= p.y < m.bounds.bottom && m.bounds.left <= p.x < ZoneLeft(m.bounds)
    ensures MessengerZoneFor(m, p).Some?
    ensures ScreenToSource(Some(m), p).value.x < MessengerZoneFor(m, p).value.left
  {
    var b := m.bounds;
    ZoneLeftEdge(m, p);
    assert PointInRect(b, p);
    MulStrict((p.x - b.left) as real, (ZoneLeft(b) - b.left) as real, m.scale);
  }

  /** The left edge of a created zone, in source coordinates. */
  lemma ZoneLeftEdge(m: Monitor, p: Point)
    requires m.bounds.Width() > 0 && m.bounds.Height() > 0
    requires StripTop(m.bounds) <= p.y < m.bounds.bottom && m.bounds.left <= p.x < m.bounds.right
    ensures MessengerZoneFor(m, p).Some?
    ensures MessengerZoneFor(m, p).value.left == (ZoneLeft(m.bounds) - m.bounds.left) as real * m.scale
  {
    MessengerZoneExactly(m, p);
  }

  // ---------------------------------------------------------------- events

  /** A pointer event: records the position and time; a real move drops the
      click lock; straying more than 10 px on either axis from the zone's
      click ends the messenger zone. */
  function OnMouseMove(s: State, p: Point, now: nat): (r: State)
    ensures r.mousePos == p && r.lastMouseTick == now
    ensures r.clickLock <==> s.clickLock && p == s.mousePos
    ensures r.zone.Some? <==>
      s.zone.Some? && AbsInt(p.x - s.zone.value.anchor.x) <= MessengerAnchorSlack
                   && AbsInt(p.y - s.zone.value.anchor.y) <= MessengerAnchorSlack
    ensures r.zone.Some? ==> r.zone == s.zone
    ensures r == s.(mousePos := p, lastMouseTick := now, clickLock := r.clickLock, zone := r.zone)
  {
    var moved := p.x != s.mousePos.x || p.y != s.mousePos.y;
    var lock := if moved then false else s.clickLock;
    var zone :=
      match s.zone
      case None => None
      case Some(z) =>
        if AbsInt(p.x - z.anchor.x) > MessengerAnchorSlack || AbsInt(p.y - z.anchor.y) > MessengerAnchorSlack then None
        else s.zone;
    s.(mousePos := p, lastMouseTick := now, clickLock := lock, zone := zone)
  }

  /** A caret event: records the caret and its time. */
  function OnCaret(s: State, p: Point, now: nat): (r: State)
    ensures r == s.(caretPos := p, lastCaretTick := now)
  {
    s.(caretPos := p, lastCaretTick := now)
  }

  /** A focus event: records the focus rectangle and its time. */
  function OnFocus(s: State, rect: Rect, now: nat): (r: State)
    ensures r == s.(focusRect := rect, lastFocusTick := now)
  {
    s.(focusRect := rect, lastFocusTick := now)
  }

  /** A left click: moves the pointer there, starts a click lock anchored at
      the click, ends any messenger zone, and creates a new one when the
      foreground window is a messenger and the click is in the source
      monitor's bottom strip. `isMessenger` is the foreground-window query. */
  function OnLeftClick(s: State, p: Point, now: nat, isMessenger: bool): (r: State)
    ensures r.mousePos == p && r.clickLock
    ensures r.click == Some(Click(p, now, ScreenToSource(s.source, p)))
    ensures r.zone.Some? <==> isMessenger && s.source.Some? && MessengerZoneFor(s.source.value, p).Some?
    ensures r.zone.Some? ==> r.zone.value == MessengerZone(MessengerZoneFor(s.source.value, p).value, p)
    ensures r == s.(mousePos := p, click := r.click, clickLock := true, zone := r.zone)
  {
    var s1 := s.(mousePos := p, click := Some(Click(p, now, ScreenToSource(s.source, p))), clickLock := true, zone := None);
    if s.source.Some? && isMessenger then
      match MessengerZoneFor(s.source.value, p)
      case None => s1
      case Some(rect) => s1.(zone := Some(MessengerZone(rect, p)))
    else s1
  }
}
