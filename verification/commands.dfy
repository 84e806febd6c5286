/** User-facing commands that act on the controller outside the tick:
    zoom changes, mode cycling, recentering, and the history reset. */
module Commands {
  import opened Options
  import opened Geometry
  import opened ControllerState
  import opened Arbitration
  import opened Smoothing
  import opened ViewUpdate

  /** Applies the configured zoom, mode and invert flag at start-up; the
      configured zoom is clamped to `[MinZoom, MaxZoom]`. */
  function ApplyConfig(s: State, zoom: real, mode: TrackingMode, invert: bool): (r: State)
    ensures Valid(r)
    ensures MinZoom <= zoom <= MaxZoom ==> r.zoom == zoom
    ensures zoom < MinZoom ==> r.zoom == MinZoom
    ensures zoom > MaxZoom ==> r.zoom == MaxZoom
    ensures r == s.(zoom := r.zoom, mode := mode, invertColors := invert, lastCaretTargetTick := 0, puttyAnchor := None)
  {
    s.(zoom := Clamp(zoom, MinZoom, MaxZoom), mode := mode, invertColors := invert,
       lastCaretTargetTick := 0, puttyAnchor := None)
  }

  /** Applying the same settings twice is applying them once. */
  lemma ApplyConfigIdempotent(s: State, zoom: real, mode: TrackingMode, invert: bool)
    ensures var r := ApplyConfig(s, zoom, mode, invert);
      ApplyConfig(r, zoom, mode, invert) == r
  {
  }

  /** Changes the zoom by `delta`, clamped to `[MinZoom, MaxZoom]`. A change
      smaller than 0.001 is ignored; any other change drops the center so
      the next tick recenters from scratch. */
  function ChangeZoom(s: State, delta: real): (r: State)
    requires Valid(s)
    ensures Valid(r)
    ensures var z := s.zoom + delta;
      MinZoom <= z <= MaxZoom && (z - s.zoom >= 0.001 || s.zoom - z >= 0.001) ==> r.zoom == z
    ensures r == s || (r == s.(zoom := r.zoom, center := None) && r.zoom != s.zoom)
    ensures r.center.Some? ==> r == s
    ensures var z := Clamp(s.zoom + delta, MinZoom, MaxZoom);
      var d := if z >= s.zoom then z - s.zoom else s.zoom - z;
      && (d < 0.001 ==> r == s)
      && (d >= 0.001 ==> r == s.(zoom := z, center := None))
    ensures delta >= 0.0 ==> r.zoom >= s.zoom
    ensures delta <= 0.0 ==> r.zoom <= s.zoom
  {
    var z := Clamp(s.zoom + delta, MinZoom, MaxZoom);
    var diff := if z >= s.zoom then z - s.zoom else s.zoom - z;
    if diff < 0.001 then s
    else s.(zoom := z, center := None)
  }

  /** Zooming in at the maximum, or out at the minimum, changes nothing. */
  lemma ZoomSaturates(s: State)
    requires Valid(s)
    ensures s.zoom == MaxZoom ==> ChangeZoom(s, ZoomStep) == s
    ensures s.zoom == MinZoom ==> ChangeZoom(s, -ZoomStep) == s
  {
  }

  /** Zooming in by `delta` and back out by the same amount, inside the zoom
      range, restores the zoom; the center is dropped and recomputed on the
      next tick. */
  lemma ZoomInThenOutRestores(s: State, delta: real)
    requires Valid(s) && MinZoom <= s.zoom + delta <= MaxZoom
    requires delta >= 0.001 || delta <= -0.001
    ensures var r := ChangeZoom(ChangeZoom(s, delta), -delta);
      r.zoom == s.zoom && r.center.None? && r == s.(center := None)
  {
  }

  /** The mode after Auto -> Caret -> Mouse -> Focus -> Manual -> Auto. */
  function NextMode(m: TrackingMode): (n: TrackingMode)
    ensures n != m
  {
    match m
    case Auto => Caret
    case Caret => Mouse
    case Mouse => Focus
    case Focus => Manual
    case Manual => Auto
  }

  function CycleTrackingMode(s: State): (r: State)
    ensures r == s.(mode := NextMode(s.mode))
  {
    s.(mode := NextMode(s.mode))
  }

  function Iterate(m: TrackingMode, k: nat): TrackingMode {
    if k == 0 then m else NextMode(Iterate(m, k - 1))
  }

  /** Cycling is a 5-cycle: five presses return to the starting mode and the
      first five visit every mode once. */
  lemma CycleHasPeriodFive(m: TrackingMode)
    ensures Iterate(m, 5) == m
    ensures {Iterate(m, 0), Iterate(m, 1), Iterate(m, 2), Iterate(m, 3), Iterate(m, 4)}
         == {Auto, Caret, Mouse, Focus, Manual}
  {
    var a1 := NextMode(m);
    var a2 := NextMode(a1);
    var a3 := NextMode(a2);
    var a4 := NextMode(a3);
    assert Iterate(m, 1) == a1 && Iterate(m, 2) == a2 && Iterate(m, 3) == a3 && Iterate(m, 4) == a4;
    assert Iterate(m, 5) == NextMode(a4);
    match m
    case Auto => assert [a1, a2, a3, a4] == [Caret, Mouse, Focus, Manual];
    case Caret => assert [a1, a2, a3, a4] == [Mouse, Focus, Manual, Auto];
    case Mouse => assert [a1, a2, a3, a4] == [Focus, Manual, Auto, Caret];
    case Focus => assert [a1, a2, a3, a4] == [Manual, Auto, Caret, Mouse];
    case Manual => assert [a1, a2, a3, a4] == [Auto, Caret, Mouse, Focus];
  }

  /** Swaps the current and the previous center (or restores the previous
      one when there is no center) and restarts the history cooldown. No
      history, no effect. */
  function RestorePreviousCenter(s: State, now: nat): (r: State)
    ensures s.previous.None? ==> r == s
    ensures s.previous.Some? && s.center.None? ==>
      r == s.(center := s.previous, previousSavedTick := now)
    ensures s.previous.Some? && s.center.Some? ==>
      r == s.(center := s.previous, previous := s.center, previousSavedTick := now)
  {
    match s.previous
    case None => s
    case Some(p) =>
      if s.center.None? then s.(center := Some(p), previousSavedTick := now)
      else s.(center := Some(p), previous := s.center, previousSavedTick := now)
  }

  /** Two restores return to the original center and history. */
  lemma RestoreTwiceIsIdentity(s: State, t1: nat, t2: nat)
    requires s.center.Some? && s.previous.Some?
    ensures var r := RestorePreviousCenter(RestorePreviousCenter(s, t1), t2);
      r.center == s.center && r.previous == s.previous && r == s.(previousSavedTick := t2)
  {
  }

  /** Forgets the center, the jump history, the click and the messenger
      zone; run when the magnifier starts or stops and when the monitors
      are swapped. */
  function ClearCenterHistory(s: State): (r: State)
    ensures r.center.None? && r.previous.None? && r.click.None? && !r.clickLock && r.zone.None?
    ensures r.previousSavedTick == 0
    ensures r == s.(center := None, previous := None, previousSavedTick := 0, click := None, clickLock := false, zone := None)
  {
    s.(center := None, previous := None, previousSavedTick := 0, click := None, clickLock := false, zone := None)
  }

  /** After a reset the next movement lands exactly on its target: there is
      no center to glide from and no click to limit the snap. */
  lemma ResetSnapsExactly(s: State, sel: Selection, now: nat)
    ensures Move(ClearCenterHistory(s), sel, now).center == Some(sel.target)
    ensures Move(ClearCenterHistory(s), sel, now).previous.None?
  {
    var c := ClearCenterHistory(s);
    assert LimitClickMovement(c, sel.target, now) == (c, sel.target);
  }

  /** Recenters on the caret at once (a non-modifier key press): when the
      magnifier is on, the mode is not Manual, a frame exists and the caret
      is on the source monitor, the center becomes the caret target clamped
      into the valid range, bypassing the click limiter. */
  function CenterOnCaretNow(s: State, frame: Frame, now: nat): (r: State)
    requires Valid(s)
    ensures Valid(r)
    ensures (!s.active || s.mode == Manual || frame.width == 0 || frame.height == 0
             || ScreenToSource(s.source, s.caretPos).None?) ==> r == s
    ensures (s.active && s.mode != Manual && frame.width > 0 && frame.height > 0
             && ScreenToSource(s.source, s.caretPos).Some?) ==>
      var v := ViewFor(frame, s.zoom);
      var p := ScreenToSource(s.source, s.caretPos).value;
      && r.center == Some(ClampCenter(FPoint(p.x + CaretOffsetX, p.y), v))
      && v.CenterInRange(r.center.value)
      && r.lastCaretTargetTick == now
      && r == s.(center := r.center, previous := r.previous, previousSavedTick := r.previousSavedTick,
                 lastCaretTargetTick := now)
      && (s.center.None? ==> r.previous == s.previous && r.previousSavedTick == s.previousSavedTick)
      && (s.center.Some? ==>
            if RecordsJump(s, s.center.value, FPoint(p.x + CaretOffsetX, p.y), now)
            then r.previous == s.center && r.previousSavedTick == now
            else r.previous == s.previous && r.previousSavedTick == s.previousSavedTick)
  {
    if !s.active || s.mode == Manual || s.source.None? then s
    else if frame.width == 0 || frame.height == 0 then s
    else match ScreenToSource(s.source, s.caretPos)
      case None => s
      case Some(p) =>
        var v := ViewFor(frame, s.zoom);
        var s1 := SnapCenterTo(s, FPoint(p.x + CaretOffsetX, p.y), now, true).(lastCaretTargetTick := now);
        s1.(center := Some(ClampCenter(s1.center.value, v)))
  }

  /** Recentering depends only on the caret: a second recenter at once puts
      the center where the first one did. */
  lemma RecenterTwiceSameCenter(s: State, frame: Frame, now: nat)
    requires Valid(s)
    ensures var r := CenterOnCaretNow(s, frame, now);
      CenterOnCaretNow(r, frame, now).center == r.center
  {
  }

  /** Starting the magnifier. `selection` is the source monitor chosen by
      monitor selection (None when it fails); it is used only when no source
      is selected yet. `configured` says whether capture and the magnifier
      window could be set up for the monitors. On success the magnifier is
      shown and the center history is cleared; a failed selection changes
      nothing, and a failed set-up keeps only the selection. */
  function StartMagnifier(s: State, selection: Option<Monitor>, configured: bool): (r: State)
    ensures r.source == (if s.source.Some? then s.source else selection)
    ensures r.source.None? || !configured ==> r == s.(source := r.source)
    ensures r.source.Some? && configured ==>
      && r.active && r.center.None? && r.previous.None? && r.click.None? && !r.clickLock && r.zone.None?
      && r == s.(source := r.source, active := true, center := None, previous := None, previousSavedTick := 0,
                 click := None, clickLock := false, zone := None)
  {
    if s.source.None? && selection.None? then s
    else
      var s1 := s.(source := if s.source.Some? then s.source else selection);
      if !configured then s1
      else ClearCenterHistory(s1).(active := true)
  }

  /** Stopping the magnifier hides it and clears the center history. */
  function StopMagnifier(s: State): (r: State)
    ensures !r.active && r.center.None? && r.previous.None? && r.click.None? && !r.clickLock && r.zone.None?
    ensures r == s.(active := false, center := None, previous := None, previousSavedTick := 0,
                    click := None, clickLock := false, zone := None)
  {
    ClearCenterHistory(s).(active := false)
  }

  /** Application start-up: the settings are applied to the initial state,
      then the magnifier is shown with the selected source. Starting from
      the initial state clears nothing that is not already clear. */
  lemma StartFromInitial(mode: TrackingMode, zoom: real, invert: bool, source: Monitor)
    ensures var s := ApplyConfig(Initial(mode), zoom, mode, invert);
      StartMagnifier(s, Some(source), true) == s.(source := Some(source), active := true)
  {
  }

  /** A stopped magnifier ignores recentering key presses. */
  lemma StoppedIgnoresRecenter(s: State, frame: Frame, now: nat)
    requires Valid(s)
    ensures CenterOnCaretNow(StopMagnifier(s), frame, now) == StopMagnifier(s)
  {
  }

  /** A stopped magnifier does not track: timer ticks leave it alone until
      it is started again. */
  lemma StoppedIgnoresTick(s: State, frame: Option<Frame>, terminalRect: Option<Rect>, now: nat)
    requires Valid(s)
    ensures Update(StopMagnifier(s), frame, terminalRect, now) == StopMagnifier(s)
  {
  }

  /** Right after a successful start a recentering key press lands exactly
      on the clamped caret target and records no history, since there is no
      center to jump from. */
  lemma StartThenRecenter(s: State, selection: Option<Monitor>, frame: Frame, now: nat)
    requires Valid(s) && s.mode != Manual && frame.width > 0 && frame.height > 0
    requires (if s.source.Some? then s.source else selection).Some?
    requires ScreenToSource(if s.source.Some? then s.source else selection, s.caretPos).Some?
    ensures var started := StartMagnifier(s, selection, true);
      var r := CenterOnCaretNow(started, frame, now);
      var p := ScreenToSource(started.source, s.caretPos).value;
      && r.center == Some(ClampCenter(FPoint(p.x + CaretOffsetX, p.y), ViewFor(frame, s.zoom)))
      && r.previous.None?
  {
  }
}
