/** Mode arbitration: which attention signal, if any, becomes this tick's
    movement target. */
module Arbitration {
  import opened Options
  import opened Geometry
  import opened Ticks
  import opened ControllerState

  datatype TargetKind = NoTarget | CaretTarget | MouseTarget | FocusTarget

  /** The outcome of arbitration: the target (the frame middle when there is
      none), which signal supplied it, and the new value of the
      "last caret-sourced target" tick. */
  datatype Selection = Selection(target: FPoint, kind: TargetKind, caretTargetTick: nat)

  /** Signals are ignored inside the window after the End key is released
      and while terminal alignment is active. */
  predicate Suppressed(s: State, now: nat) {
    now < s.endIgnoreUntil || s.endAlignment
  }

  /** The caret target: the mapped caret shifted right by the caret width,
      while the caret signal is fresh. */
  function CaretCandidate(s: State, now: nat, suppressed: bool): (r: Option<FPoint>)
    ensures r.Some? <==>
      !suppressed && Elapsed(now, s.lastCaretTick) <= CaretFollowTimeoutMs && ScreenToSource(s.source, s.caretPos).Some?
    ensures r.Some? ==>
      var p := ScreenToSource(s.source, s.caretPos).value;
      r.value.x == p.x + CaretOffsetX && r.value.y == p.y
  {
    if suppressed || Elapsed(now, s.lastCaretTick) > CaretFollowTimeoutMs then None
    else
      match ScreenToSource(s.source, s.caretPos)
      case None => None
      case Some(p) => Some(FPoint(p.x + CaretOffsetX, p.y))
  }

  /** The pointer target while the pointer signal is fresh; in Auto mode a
      pointer event not newer than the last caret-sourced target is stale. */
  function MouseCandidate(s: State, now: nat, suppressed: bool): (r: Option<FPoint>)
    ensures r.Some? <==>
      && !suppressed && Elapsed(now, s.lastMouseTick) <= MouseFollowTimeoutMs
      && (s.mode == Auto ==> s.lastCaretTargetTick < s.lastMouseTick)
      && ScreenToSource(s.source, s.mousePos).Some?
    ensures r.Some? ==> r == ScreenToSource(s.source, s.mousePos)
  {
    if suppressed || Elapsed(now, s.lastMouseTick) > MouseFollowTimeoutMs then None
    else if s.mode == Auto && s.lastMouseTick <= s.lastCaretTargetTick then None
    else ScreenToSource(s.source, s.mousePos)
  }

  /** The screen-space center of a rectangle, computed in LONG arithmetic. */
  function RectCenter(r: Rect): Point {
    Point(r.left + HalfTowardZero(r.right - r.left), r.top + HalfTowardZero(r.bottom - r.top))
  }

  /** The focus target: the mapped center of the focus rectangle while the
      focus signal is fresh. */
  function FocusCandidate(s: State, now: nat, suppressed: bool): (r: Option<FPoint>)
    ensures r.Some? <==>
      !suppressed && Elapsed(now, s.lastFocusTick) <= FocusFollowTimeoutMs && ScreenToSource(s.source, RectCenter(s.focusRect)).Some?
    ensures r.Some? ==> r == ScreenToSource(s.source, RectCenter(s.focusRect))
  {
    if suppressed || Elapsed(now, s.lastFocusTick) > FocusFollowTimeoutMs then None
    else ScreenToSource(s.source, RectCenter(s.focusRect))
  }

  /** Picks this tick's target. Auto tries caret, then pointer, then focus;
      Caret, Mouse and Focus use only their own signal; Manual never yields
      a target. */
  function Arbitrate(s: State, now: nat, suppressed: bool, middle: FPoint): (sel: Selection)
    ensures sel.kind == NoTarget ==> sel.target == middle && sel.caretTargetTick == s.lastCaretTargetTick
    ensures s.mode == Manual || suppressed ==> sel.kind == NoTarget
    ensures sel.kind == CaretTarget <==>
      && (s.mode == Auto || s.mode == Caret)
      && !suppressed
      && Elapsed(now, s.lastCaretTick) <= CaretFollowTimeoutMs
      && ScreenToSource(s.source, s.caretPos).Some?
    ensures sel.kind == CaretTarget ==>
      sel.caretTargetTick == now
      && sel.target == FPoint(ScreenToSource(s.source, s.caretPos).value.x + CaretOffsetX, ScreenToSource(s.source, s.caretPos).value.y)
    ensures sel.kind == MouseTarget ==>
      && (s.mode == Auto || s.mode == Mouse)
      && !suppressed
      && Elapsed(now, s.lastMouseTick) <= MouseFollowTimeoutMs
      && (s.mode == Auto ==> s.lastCaretTargetTick < s.lastMouseTick && sel.caretTargetTick == 0)
      && (s.mode == Mouse ==> sel.caretTargetTick == s.lastCaretTargetTick)
      && Some(sel.target) == ScreenToSource(s.source, s.mousePos)
    ensures sel.kind == FocusTarget ==>
      && (s.mode == Auto || s.mode == Focus)
      && !suppressed
      && Elapsed(now, s.lastFocusTick) <= FocusFollowTimeoutMs
      && Some(sel.target) == ScreenToSource(s.source, RectCenter(s.focusRect))
      && sel.caretTargetTick == s.lastCaretTargetTick
    ensures s.mode == Mouse ==>
      (sel.kind == MouseTarget <==>
        !suppressed && Elapsed(now, s.lastMouseTick) <= MouseFollowTimeoutMs && ScreenToSource(s.source, s.mousePos).Some?)
    ensures s.mode == Focus ==>
      (sel.kind == FocusTarget <==>
        !suppressed && Elapsed(now, s.lastFocusTick) <= FocusFollowTimeoutMs
        && ScreenToSource(s.source, RectCenter(s.focusRect)).Some?)
  {
    var none := Selection(middle, NoTarget, s.lastCaretTargetTick);
    var caret := CaretCandidate(s, now, suppressed);
    var mouse := MouseCandidate(s, now, suppressed);
    var focus := FocusCandidate(s, now, suppressed);
    match s.mode
    case Auto =>
      if caret.Some? then Selection(caret.value, CaretTarget, now)
      else if mouse.Some? then Selection(mouse.value, MouseTarget, 0)
      else if focus.Some? then Selection(focus.value, FocusTarget, s.lastCaretTargetTick)
      else none
    case Caret =>
      if caret.Some? then Selection(caret.value, CaretTarget, now) else none
    case Mouse =>
      if mouse.Some? then Selection(mouse.value, MouseTarget, s.lastCaretTargetTick) else none
    case Focus =>
      if focus.Some? then Selection(focus.value, FocusTarget, s.lastCaretTargetTick) else none
    case Manual =>
      none
  }

  /** Auto priority: the pointer is used only when no caret target is
      available, and focus only when neither caret nor pointer is. */
  lemma AutoPriority(s: State, now: nat, suppressed: bool, middle: FPoint)
    requires s.mode == Auto
    ensures var sel := Arbitrate(s, now, suppressed, middle);
      && (sel.kind == MouseTarget ==> CaretCandidate(s, now, suppressed).None?)
      && (sel.kind == FocusTarget ==> CaretCandidate(s, now, suppressed).None? && MouseCandidate(s, now, suppressed).None?)
      && (sel.kind == NoTarget ==> FocusCandidate(s, now, suppressed).None?)
      && (CaretCandidate(s, now, suppressed).None? && MouseCandidate(s, now, suppressed).Some? ==> sel.kind == MouseTarget)
  {
  }

  /** With both caret and pointer fresh and mappable, Auto follows the caret;
      once the caret is older than its window, a fresh newer pointer wins. */
  lemma AutoCaretBeatsMouse(s: State, now: nat, middle: FPoint)
    requires s.mode == Auto
    requires NotAfter(s.lastCaretTick, now) && NotAfter(s.lastMouseTick, now)
    requires ScreenToSource(s.source, s.caretPos).Some? && ScreenToSource(s.source, s.mousePos).Some?
    requires now - s.lastMouseTick <= MouseFollowTimeoutMs && s.lastCaretTargetTick < s.lastMouseTick
    ensures now - s.lastCaretTick <= CaretFollowTimeoutMs ==> Arbitrate(s, now, false, middle).kind == CaretTarget
    ensures now - s.lastCaretTick > CaretFollowTimeoutMs ==> Arbitrate(s, now, false, middle).kind == MouseTarget
  {
  }
}
