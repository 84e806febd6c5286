/** Points, rectangles and monitors, and the mapping from screen space to
    the pixel space of the captured source frame. */
module Geometry {
  import opened Options

  /** A screen-space point in device pixels (a Win32 POINT). */
  datatype Point = Point(x: int, y: int)

  /** A screen-space rectangle; `right` and `bottom` are exclusive. */
  datatype Rect = Rect(left: int, top: int, right: int, bottom: int) {
    function Width(): int { right - left }
    function Height(): int { bottom - top }
  }

  /** A point in the pixel space of the captured source frame. */
  datatype FPoint = FPoint(x: real, y: real)

  /** A rectangle in source-frame pixel space. */
  datatype FRect = FRect(left: real, top: real, right: real, bottom: real)

  /** One display as reported by monitor enumeration: its bounds in screen
      space, its work area, its DPI scale factor and its device name. */
  datatype Monitor = Monitor(bounds: Rect, workArea: Rect, scale: real, primary: bool, deviceName: string)

  /** Half-open containment: the left and top edges belong to the
      rectangle, the right and bottom edges do not. */
  predicate PointInRect(r: Rect, p: Point) {
    r.left <= p.x < r.right && r.top <= p.y < r.bottom
  }

  /** Maps a screen point to source-frame pixels. There is no mapping while
      no source monitor is selected or when the point lies outside the
      source monitor. */
  function ScreenToSource(source: Option<Monitor>, p: Point): (r: Option<FPoint>)
    ensures r.None? <==> source.None? || !PointInRect(source.value.bounds, p)
    ensures r.Some? ==>
      var b := source.value.bounds;
      r.value == FPoint((p.x - b.left) as real * source.value.scale, (p.y - b.top) as real * source.value.scale)
  {
    match source
    case None => None
    case Some(m) =>
      if !PointInRect(m.bounds, p) then None
      else Some(FPoint((p.x - m.bounds.left) as real * m.scale, (p.y - m.bounds.top) as real * m.scale))
  }

  /** Every mapped point lands inside the source frame of a monitor whose
      scale is positive: `[0, width*scale) x [0, height*scale)`. */
  lemma ScreenToSourceInFrame(m: Monitor, p: Point)
    requires m.scale > 0.0
    requires ScreenToSource(Some(m), p).Some?
    ensures var q := ScreenToSource(Some(m), p).value;
      && 0.0 <= q.x < m.bounds.Width() as real * m.scale
      && 0.0 <= q.y < m.bounds.Height() as real * m.scale
  {
    var q := ScreenToSource(Some(m), p).value;
    var dx := (p.x - m.bounds.left) as real;
    var w := m.bounds.Width() as real;
    assert 0.0 <= dx < w;
    MulStrict(dx, w, m.scale);
    var dy := (p.y - m.bounds.top) as real;
    var h := m.bounds.Height() as real;
    assert 0.0 <= dy < h;
    MulStrict(dy, h, m.scale);
  }

  lemma MulStrict(a: real, b: real, k: real)
    requires 0.0 <= a < b && k > 0.0
    ensures 0.0 <= a * k < b * k
  {
  }

  /** Distinct screen points inside the source monitor map to distinct
      frame points, so a mapped target identifies its screen point. */
  lemma ScreenToSourceInjective(m: Monitor, p: Point, q: Point)
    requires m.scale > 0.0
    requires ScreenToSource(Some(m), p).Some? && ScreenToSource(Some(m), q).Some?
    requires ScreenToSource(Some(m), p) == ScreenToSource(Some(m), q)
    ensures p == q
  {
    var a := (p.x - m.bounds.left) as real;
    var b := (q.x - m.bounds.left) as real;
    assert a * m.scale == b * m.scale;
    CancelScale(a, b, m.scale);
    var c := (p.y - m.bounds.top) as real;
    var d := (q.y - m.bounds.top) as real;
    assert c * m.scale == d * m.scale;
    CancelScale(c, d, m.scale);
  }

  lemma CancelScale(a: real, b: real, k: real)
    requires k > 0.0 && a * k == b * k
    ensures a == b
  {
    assert (a - b) * k == a * k - b * k;
  }

  /** `std::clamp` on reals; the caller guarantees `lo <= hi`, as the
      standard library demands. */
  function Clamp(v: real, lo: real, hi: real): (r: real)
    requires lo <= hi
    ensures lo <= r <= hi
    ensures lo <= v <= hi ==> r == v
    ensures v < lo ==> r == lo
    ensures hi < v ==> r == hi
  {
    if v < lo then lo else if hi < v then hi else v
  }

  /** `std::clamp` on integers. */
  function ClampInt(v: int, lo: int, hi: int): (r: int)
    requires lo <= hi
    ensures lo <= r <= hi
    ensures lo <= v <= hi ==> r == v
    ensures v < lo ==> r == lo
    ensures hi < v ==> r == hi
  {
    if v < lo then lo else if hi < v then hi else v
  }

  function MinReal(a: real, b: real): (r: real)
    ensures r <= a && r <= b && (r == a || r == b)
  {
    if a <= b then a else b
  }

  function MaxReal(a: real, b: real): (r: real)
    ensures a <= r && b <= r && (r == a || r == b)
  {
    if a <= b then b else a
  }

  function MaxInt(a: int, b: int): (r: int)
    ensures a <= r && b <= r && (r == a || r == b)
  {
    if a <= b then b else a
  }

  function AbsInt(a: int): (r: nat)
    ensures r == a || r == -a
  {
    if a < 0 then -a else a
  }

  /** `std::ceil`, defined from Dafny's floor. */
  function Ceil(x: real): (r: int)
    ensures x <= r as real < x + 1.0
  {
    -((-x).Floor)
  }

  /** `std::lround`: the nearest integer, halves rounded away from zero. */
  function LRound(x: real): (r: int)
    ensures x - 0.5 <= r as real <= x + 0.5
    ensures 0.0 <= x ==> x - 0.5 < r as real
    ensures x <= 0.0 ==> r as real < x + 0.5
  {
    if x >= 0.0 then (x + 0.5).Floor else -((-x + 0.5).Floor)
  }

  /** C++ `a / 2` on LONG: the quotient is truncated toward zero. */
  function HalfTowardZero(a: int): (q: int)
    ensures 0 <= a ==> 0 <= 2 * q <= a <= 2 * q + 1
    ensures a < 0 ==> 2 * q - 1 <= a <= 2 * q <= 0
  {
    if a >= 0 then a / 2 else -((-a) / 2)
  }
}
