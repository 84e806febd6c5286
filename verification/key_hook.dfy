/** The keyboard hook's effect on the controller: End-key tracking, and the
    immediate recenter on the caret that most key presses trigger. */
module KeyHook {
  import opened Options
  import opened Geometry
  import opened Ticks
  import opened ControllerState
  import opened Arbitration
  import opened Smoothing
  import opened Zones
  import opened ViewUpdate
  import opened Commands

  /** The keys the hook tells apart. `WinKey` is either Windows key;
      `ModifierKey` is any other pure modifier (Shift, Ctrl, Alt, Caps Lock);
      `OtherKey` is every key that is neither End nor a pure modifier. */
  datatype Key = EndKey | WinKey | ModifierKey | OtherKey

  /** Whether a key event recenters on the caret: a Windows key release, or
      a press of any key that is not a pure modifier (End included, and so
      are its auto-repeats). */
  predicate Recenters(key: Key, down: bool) {
    (key == WinKey && !down) || (down && (key == EndKey || key == OtherKey))
  }

  /** The End-key state after an End event. */
  function EndStage(s: State, down: bool, now: nat): State {
    if down then OnEndKeyDown(s, now) else OnEndKeyUp(s, now)
  }

  /** One key event: End presses and releases update the End state first,
      then a recentering event outside Manual mode recenters on the caret. */
  function OnKey(s: State, key: Key, down: bool, frame: Frame, now: nat): (r: State)
    requires Valid(s)
    ensures Valid(r) && r.zoom == s.zoom && r.mode == s.mode && r.active == s.active
    ensures !Recenters(key, down) && key != EndKey ==> r == s
    ensures key == EndKey ==>
      var e := EndStage(s, down, now);
      && r.endKeyDown == e.endKeyDown && r.endAlignment == e.endAlignment
      && r.endPressTick == e.endPressTick && r.endIgnoreUntil == e.endIgnoreUntil
      && r.puttyAnchor == e.puttyAnchor
    ensures key != EndKey ==>
      && r.endKeyDown == s.endKeyDown && r.endAlignment == s.endAlignment
      && r.endPressTick == s.endPressTick && r.endIgnoreUntil == s.endIgnoreUntil
      && r.puttyAnchor == s.puttyAnchor
    ensures Recenters(key, down) && s.active && s.mode != Manual && frame.width > 0 && frame.height > 0
            && ScreenToSource(s.source, s.caretPos).Some? ==>
      var p := ScreenToSource(s.source, s.caretPos).value;
      r.center == Some(ClampCenter(FPoint(p.x + CaretOffsetX, p.y), ViewFor(frame, s.zoom)))
      && r.lastCaretTargetTick == now
    ensures !(Recenters(key, down) && s.active && s.mode != Manual && frame.width > 0 && frame.height > 0
              && ScreenToSource(s.source, s.caretPos).Some?) ==>
      r.center == s.center && r.previous == s.previous && r.lastCaretTargetTick == s.lastCaretTargetTick
    // nothing else changes: the End stage and the recenter are the only steps
    ensures var s1 := if key == EndKey then EndStage(s, down, now) else s;
      r == (if Recenters(key, down) && s.mode != Manual then CenterOnCaretNow(s1, frame, now) else s1)
  {
    var s1 := if key == EndKey then EndStage(s, down, now) else s;
    if Recenters(key, down) && s1.mode != Manual then CenterOnCaretNow(s1, frame, now)
    else s1
  }

  /** An auto-repeated End press keeps the hold going (its start tick, the
      alignment flag and the anchor stay) and still recenters on the caret,
      like any other key press. */
  lemma EndRepeatRecenters(s: State, frame: Frame, now: nat)
    requires Valid(s) && s.endKeyDown && s.active && s.mode != Manual
    requires frame.width > 0 && frame.height > 0 && ScreenToSource(s.source, s.caretPos).Some?
    ensures var r := OnKey(s, EndKey, true, frame, now);
      var p := ScreenToSource(s.source, s.caretPos).value;
      && r.endKeyDown && r.endPressTick == s.endPressTick && r.endAlignment == s.endAlignment
      && r.puttyAnchor == s.puttyAnchor
      && r.center == Some(ClampCenter(FPoint(p.x + CaretOffsetX, p.y), ViewFor(frame, s.zoom)))
  {
  }

  /** A key-press recenter and the next tick agree: when the tick would
      follow the same fresh caret, it leaves the recentered center where it
      is. */
  lemma RecenterAgreesWithTick(s: State, frame: Frame, terminalRect: Option<Rect>, now: nat)
    requires Valid(s) && s.active && s.source.Some? && frame.width > 0 && frame.height > 0
    requires !s.endKeyDown && !Suppressed(s, now) && s.zone.None?
    requires s.mode == Auto || s.mode == Caret
    requires Elapsed(now, s.lastCaretTick) <= CaretFollowTimeoutMs
    requires ScreenToSource(s.source, s.caretPos).Some?
    ensures var r := CenterOnCaretNow(s, frame, now);
      Tick(r, frame, terminalRect, now).center == r.center
  {
    TickFollowsCaret(CenterOnCaretNow(s, frame, now), frame, terminalRect, now);
  }
}
