/** The viewport smoother: the click-rate limiter, snapping, gliding with a
    dead zone, and the one-slot jump history. */
module Smoothing {
  import opened Options
  import opened Geometry
  import opened Ticks
  import opened ControllerState
  import opened Arbitration

  function DistanceSq(a: FPoint, b: FPoint): real {
    (b.x - a.x) * (b.x - a.x) + (b.y - a.y) * (b.y - a.y)
  }

  /** The click's frame position: the resolved one, else resolved now from
      its screen point. */
  function ClickAnchor(s: State): Option<FPoint>
    requires s.click.Some?
  {
    if s.click.value.source.Some? then s.click.value.source
    else ScreenToSource(s.source, s.click.value.point)
  }

  /** How far (per axis) the center may be from the click anchor, growing
      at 50 px per second since the click. */
  function ClickRadius(s: State, now: nat): real
    requires s.click.Some?
  {
    ClickLimitPixelsPerSecond * (Elapsed(now, s.click.value.tick) as real / 1000.0)
  }

  /** Limits a candidate center while the click lock is active. The click
      anchor is resolved lazily; if it cannot be resolved the lock is
      dropped and the candidate passes unchanged. Otherwise the candidate is
      pinned to the anchor at elapsed 0 and clamped per axis to
      `anchor +- radius` afterwards. Only the click record and the lock
      change. */
  function LimitClickMovement(s: State, p: FPoint, now: nat): (r: (State, FPoint))
    ensures r.0 == s.(click := r.0.click, clickLock := r.0.clickLock)
    ensures !s.clickLock || s.click.None? ==> r == (s, p)
    ensures s.clickLock && s.click.Some? && ClickAnchor(s).None? ==> r == (s.(clickLock := false), p)
    ensures s.clickLock && s.click.Some? && ClickAnchor(s).Some? ==>
      var a := ClickAnchor(s).value;
      var k := ClickRadius(s, now);
      && r.0.clickLock
      && r.0.click == Some(s.click.value.(source := Some(a)))
      && a.x - k <= r.1.x <= a.x + k && a.y - k <= r.1.y <= a.y + k
      && (Elapsed(now, s.click.value.tick) == 0 ==> r.1 == a)
      && (a.x - k <= p.x <= a.x + k && a.y - k <= p.y <= a.y + k ==> r.1 == p)
  {
    if !s.clickLock || s.click.None? then (s, p)
    else
      var anchor := ClickAnchor(s);
      if anchor.None? then (s.(clickLock := false), p)
      else
        var a := anchor.value;
        var s1 := s.(click := Some(s.click.value.(source := anchor)));
        var limit := ClickRadius(s, now);
        if limit <= 0.0 then (s1, a)
        else (s1, FPoint(Clamp(p.x, a.x - limit, a.x + limit), Clamp(p.y, a.y - limit, a.y + limit)))
  }

  /** Whether a move from `c` to `p` is recorded in the jump history: the
      jump is at least 160 px and no earlier jump was recorded in the last
      500 ms. */
  predicate RecordsJump(s: State, c: FPoint, p: FPoint, now: nat) {
    && DistanceSq(c, p) >= PreviousCenterRecordThreshold * PreviousCenterRecordThreshold
    && (s.previous.None? || Elapsed(now, s.previousSavedTick) >= PreviousCenterRecordCooldownMs)
  }

  /** Saves the center before a jump to `p` into the history slot. */
  function RecordJump(s: State, p: FPoint, now: nat): (r: State)
    requires s.center.Some?
    ensures r == s.(previous := r.previous, previousSavedTick := r.previousSavedTick)
    ensures RecordsJump(s, s.center.value, p, now) ==> r.previous == s.center && r.previousSavedTick == now
    ensures !RecordsJump(s, s.center.value, p, now) ==> r == s
  {
    if RecordsJump(s, s.center.value, p, now) then s.(previous := s.center, previousSavedTick := now)
    else s
  }

  /** Moves the center straight to `target`, through the click limiter
      unless `ignoreLimit`. Without a center the center is set and no
      history is recorded. */
  function SnapCenterTo(s: State, target: FPoint, now: nat, ignoreLimit: bool): (r: State)
    ensures var lim := LimitClickMovement(s, target, now);
      && r.center == Some(if ignoreLimit then target else lim.1)
      && (ignoreLimit ==> r.click == s.click && r.clickLock == s.clickLock)
      && (!ignoreLimit ==> r.click == lim.0.click && r.clickLock == lim.0.clickLock)
    ensures r == s.(center := r.center, previous := r.previous, previousSavedTick := r.previousSavedTick,
                    click := r.click, clickLock := r.clickLock)
    ensures s.center.None? ==> r.previous == s.previous && r.previousSavedTick == s.previousSavedTick
    ensures s.center.Some? ==>
      (if RecordsJump(s, s.center.value, r.center.value, now)
       then r.previous == s.center && r.previousSavedTick == now
       else r.previous == s.previous && r.previousSavedTick == s.previousSavedTick)
  {
    var lim := if ignoreLimit then (s, target) else LimitClickMovement(s, target, now);
    var s1 := lim.0;
    var p := lim.1;
    if s1.center.None? then s1.(center := Some(p))
    else RecordJump(s1, p, now).(center := Some(p))
  }

  /** Whether a target is outside the 16 px dead zone around `c`. */
  predicate OutsideDeadZone(c: FPoint, t: FPoint) {
    DistanceSq(c, t) > DeadZonePixels * DeadZonePixels
  }

  /** Moves the center 45% of the way toward a non-caret target, through the
      click limiter, unless the target is within the dead zone. */
  function Glide(s: State, t: FPoint, now: nat): (r: State)
    requires s.center.Some?
    ensures !OutsideDeadZone(s.center.value, t) ==> r == s
    ensures r.center.Some?
    ensures r == s.(center := r.center, previous := r.previous, previousSavedTick := r.previousSavedTick,
                    click := r.click, clickLock := r.clickLock)
    ensures OutsideDeadZone(s.center.value, t) ==>
      var c := s.center.value;
      var candidate := FPoint(c.x + (t.x - c.x) * SmoothingFactor, c.y + (t.y - c.y) * SmoothingFactor);
      var s1 := RecordJump(s, t, now);
      var lim := LimitClickMovement(s1, candidate, now);
      && r.center == Some(lim.1)
      && r.previous == s1.previous && r.previousSavedTick == s1.previousSavedTick
      && r.click == lim.0.click && r.clickLock == lim.0.clickLock
  {
    var c := s.center.value;
    if OutsideDeadZone(c, t) then
      var s1 := RecordJump(s, t, now);
      var candidate := FPoint(c.x + (t.x - c.x) * SmoothingFactor, c.y + (t.y - c.y) * SmoothingFactor);
      var lim := LimitClickMovement(s1, candidate, now);
      lim.0.(center := Some(lim.1))
    else s
  }

  /** Without a click lock a glide keeps 55% of the offset to the target on
      each axis, so the squared distance shrinks by the factor 0.3025 and
      strictly decreases without reaching zero. */
  lemma GlideConverges(s: State, t: FPoint, now: nat)
    requires s.center.Some? && !s.clickLock
    requires OutsideDeadZone(s.center.value, t)
    ensures var c' := Glide(s, t, now).center.value;
      && c'.x - t.x == (s.center.value.x - t.x) * 0.55
      && c'.y - t.y == (s.center.value.y - t.y) * 0.55
      && DistanceSq(c', t) == DistanceSq(s.center.value, t) * 0.3025
      && 0.0 < DistanceSq(c', t) < DistanceSq(s.center.value, t)
  {
    var c := s.center.value;
    var c' := Glide(s, t, now).center.value;
    var s1 := RecordJump(s, t, now);
    assert !s1.clickLock;
    assert c'.x == c.x + (t.x - c.x) * SmoothingFactor;
    assert c'.y == c.y + (t.y - c.y) * SmoothingFactor;
    var ex := c.x - t.x;
    var ey := c.y - t.y;
    assert c'.x - t.x == ex * 0.55;
    assert c'.y - t.y == ey * 0.55;
    assert DistanceSq(c, t) == ex * ex + ey * ey;
    assert DistanceSq(c', t) == (ex * 0.55) * (ex * 0.55) + (ey * 0.55) * (ey * 0.55);
  }

  /** The movement step of a tick (when terminal alignment does not apply):
      snap through the limiter when there is no center yet, snap exactly to
      a caret target, glide toward any other target, and stay put without
      one. */
  function Move(s: State, sel: Selection, now: nat): (r: State)
    ensures r.center.Some?
    ensures r == s.(center := r.center, previous := r.previous, previousSavedTick := r.previousSavedTick,
                    click := r.click, clickLock := r.clickLock)
    ensures s.center.None? ==> r == SnapCenterTo(s, sel.target, now, false)
    ensures s.center.Some? && sel.kind == NoTarget ==> r == s
    ensures s.center.Some? && sel.kind == CaretTarget ==>
      r.center == Some(sel.target) && r.click == s.click && r.clickLock == s.clickLock
    ensures s.center.Some? && sel.kind == CaretTarget ==> r == SnapCenterTo(s, sel.target, now, true)
    ensures s.center.Some? && sel.kind != CaretTarget && !OutsideDeadZone(s.center.value, sel.target) ==> r == s
    ensures s.center.Some? && sel.kind != NoTarget && sel.kind != CaretTarget ==> r == Glide(s, sel.target, now)
  {
    if s.center.None? then SnapCenterTo(s, sel.target, now, false)
    else if sel.kind == NoTarget then s
    else if sel.kind == CaretTarget then SnapCenterTo(s, sel.target, now, true)
    else Glide(s, sel.target, now)
  }

  /** The limiter keeps every limited move within the click box: when a
      locked, resolvable click exists, the center after a snap or glide
      through the limiter lies within `radius` of the click anchor. */
  lemma MoveStaysInClickBox(s: State, sel: Selection, now: nat)
    requires s.clickLock && s.click.Some? && ClickAnchor(s).Some?
    requires s.center.None? || (sel.kind != NoTarget && sel.kind != CaretTarget && OutsideDeadZone(s.center.value, sel.target))
    ensures var a := ClickAnchor(s).value;
      var k := ClickRadius(s, now);
      var c := Move(s, sel, now).center.value;
      a.x - k <= c.x <= a.x + k && a.y - k <= c.y <= a.y + k
  {
    if s.center.Some? {
      var s1 := RecordJump(s, sel.target, now);
      assert s1.click == s.click && s1.clickLock == s.clickLock && s1.source == s.source;
      assert ClickAnchor(s1) == ClickAnchor(s);
    }
  }
}
