/** Two rules about other applications' windows: recognising the foreground
    application by name (PuTTY, the messengers), and moving windows off the
    magnifier monitor onto the source monitor's work area. */
module WindowRules {
  import opened Options
  import opened Geometry

  // ---------------------------------------------------------------------
  // Case-insensitive pattern matching
  // ---------------------------------------------------------------------

  /** `towlower` on the ASCII letters; every other character is kept. */
  function LowerChar(c: char): (r: char)
    ensures 'A' <= c <= 'Z' ==> 'a' <= r <= 'z' && r as int == c as int + 32
    ensures !('A' <= c <= 'Z') ==> r == c
  {
    if 'A' <= c <= 'Z' then (c as int + 32) as char else c
  }

  /** The text with every character lowered. */
  function Lower(s: string): (r: string)
    ensures |r| == |s|
    ensures forall i :: 0 <= i < |s| ==> r[i] == LowerChar(s[i])
  {
    seq(|s|, i requires 0 <= i < |s| => LowerChar(s[i]))
  }

  lemma LowerIdempotent(s: string)
    ensures Lower(Lower(s)) == Lower(s)
  {
  }

  /** `p` occurs in `t` at position `i`. */
  ghost predicate OccursAt(p: string, t: string, i: int) {
    0 <= i <= |t| - |p| && t[i..i + |p|] == p
  }

  /** `t.find(p) != npos`. */
  ghost predicate Occurs(p: string, t: string) {
    exists i :: OccursAt(p, t, i)
  }

  /** A naive substring search, as `std::wstring::find` promises it: true
      exactly when `p` occurs somewhere in `t` (the empty pattern occurs
      everywhere). */
  method Find(t: string, p: string) returns (found: bool)
    ensures found <==> Occurs(p, t)
  {
    if |p| > |t| {
      return false;
    }
    var i := 0;
    while i <= |t| - |p|
      invariant 0 <= i <= |t| - |p| + 1
      invariant forall j :: 0 <= j < i ==> !OccursAt(p, t, j)
      decreases |t| - |p| - i
    {
      var k := 0;
      while k < |p| && t[i + k] == p[k]
        invariant 0 <= k <= |p|
        invariant t[i..i + k] == p[..k]
        decreases |p| - k
      {
        assert t[i..i + k + 1] == t[i..i + k] + [t[i + k]];
        assert p[..k + 1] == p[..k] + [p[k]];
        k := k + 1;
      }
      if k == |p| {
        assert OccursAt(p, t, i);
        return true;
      }
      assert t[i..i + |p|][k] != p[k];
      i := i + 1;
    }
    return false;
  }

  /** The patterns lowered, with the empty ones dropped. */
  function LoweredPatterns(patterns: seq<string>): (r: seq<string>)
    ensures |r| <= |patterns|
    ensures forall k :: 0 <= k < |r| ==> |r[k]| > 0 && Lower(r[k]) == r[k]
  {
    if |patterns| == 0 then []
    else
      var rest := LoweredPatterns(patterns[1..]);
      LowerIdempotent(patterns[0]);
      if |patterns[0]| == 0 then rest else [Lower(patterns[0])] + rest
  }

  /** Non-empty text contains one of the lowered patterns, ignoring case. */
  ghost predicate ContainsPattern(text: string, lowered: seq<string>) {
    |text| > 0 && exists k :: 0 <= k < |lowered| && Occurs(lowered[k], Lower(text))
  }

  method ContainsPatternCheck(text: string, lowered: seq<string>) returns (b: bool)
    ensures b == ContainsPattern(text, lowered)
  {
    if |text| == 0 {
      return false;
    }
    var low := Lower(text);
    var k := 0;
    while k < |lowered|
      invariant 0 <= k <= |lowered|
      invariant forall j :: 0 <= j < k ==> !Occurs(lowered[j], low)
      decreases |lowered| - k
    {
      var f := Find(low, lowered[k]);
      if f {
        return true;
      }
      k := k + 1;
    }
    return false;
  }

  /** Window text and class name are read into 256-character buffers, so at
      most 255 characters of them are seen. */
  const TextBufferChars: nat := 255

  function Truncate(s: string, n: nat): (r: string)
    ensures |r| <= n && |r| <= |s| && r == s[..|r|]
    ensures |s| <= n ==> r == s
  {
    if |s| <= n then s else s[..n]
  }

  /** What the system reports about a window: the full process image path
      (None when the process cannot be opened or queried), the title and the
      class name. */
  datatype WindowInfo = WindowInfo(image: Option<string>, title: string, className: string)

  /** A window matches when some non-empty pattern occurs, ignoring case, in
      its process image path, its (truncated) title or its (truncated) class
      name. No window, or no non-empty pattern, never matches. */
  ghost predicate Matches(w: Option<WindowInfo>, patterns: seq<string>) {
    var lowered := LoweredPatterns(patterns);
    && w.Some?
    && |lowered| > 0
    && ((w.value.image.Some? && ContainsPattern(w.value.image.value, lowered))
        || ContainsPattern(Truncate(w.value.title, TextBufferChars), lowered)
        || ContainsPattern(Truncate(w.value.className, TextBufferChars), lowered))
  }

  method WindowMatchesPatterns(w: Option<WindowInfo>, patterns: seq<string>) returns (b: bool)
    ensures b == Matches(w, patterns)
  {
    if w.None? || |patterns| == 0 {
      return false;
    }
    var lowered := LoweredPatterns(patterns);
    if |lowered| == 0 {
      return false;
    }
    var info := w.value;
    if info.image.Some? {
      b := ContainsPatternCheck(info.image.value, lowered);
      if b {
        return;
      }
    }
    var title := Truncate(info.title, TextBufferChars);
    if |title| > 0 {
      b := ContainsPatternCheck(title, lowered);
      if b {
        return;
      }
    }
    var cls := Truncate(info.className, TextBufferChars);
    if |cls| > 0 {
      b := ContainsPatternCheck(cls, lowered);
      if b {
        return;
      }
    }
    return false;
  }

  /** The patterns that identify a PuTTY terminal. */
  const PuttyPatterns: seq<string> := ["putty"]

  /** The patterns that identify a messenger. */
  const MessengerPatterns: seq<string> := ["whatsapp", "telegram"]

  /** Case does not matter on either side: a title that, lowered, contains
      the lowered pattern matches, wherever the pattern sits in the list. */
  lemma OccurrenceMatches(w: WindowInfo, patterns: seq<string>, k: nat, i: nat)
    requires k < |patterns| && |patterns[k]| > 0
    requires |w.title| <= TextBufferChars
    requires OccursAt(Lower(patterns[k]), Lower(w.title), i)
    ensures Matches(Some(w), patterns)
  {
    PatternKept(patterns, k);
    var lowered := LoweredPatterns(patterns);
    var m :| 0 <= m < |lowered| && lowered[m] == Lower(patterns[k]);
    assert Occurs(lowered[m], Lower(w.title));
  }

  lemma {:induction false} PatternKept(patterns: seq<string>, k: nat)
    requires k < |patterns| && |patterns[k]| > 0
    ensures exists m :: 0 <= m < |LoweredPatterns(patterns)| && LoweredPatterns(patterns)[m] == Lower(patterns[k])
  {
    var rest := LoweredPatterns(patterns[1..]);
    if k == 0 {
      assert LoweredPatterns(patterns)[0] == Lower(patterns[0]);
    } else {
      PatternKept(patterns[1..], k - 1);
      var m :| 0 <= m < |rest| && rest[m] == Lower(patterns[1..][k - 1]);
      if |patterns[0]| == 0 {
        assert LoweredPatterns(patterns)[m] == Lower(patterns[k]);
      } else {
        assert LoweredPatterns(patterns)[m + 1] == Lower(patterns[k]);
      }
    }
  }

  /** A PuTTY window titled "PuTTY" is recognised as a terminal. */
  lemma PuttyTitleMatches()
    ensures Matches(Some(WindowInfo(None, "PuTTY", "")), PuttyPatterns)
  {
    assert Lower("PuTTY") == "putty";
    assert Lower("putty") == "putty";
    assert OccursAt(Lower(PuttyPatterns[0]), Lower("PuTTY"), 0);
    OccurrenceMatches(WindowInfo(None, "PuTTY", ""), PuttyPatterns, 0, 0);
  }

  // ---------------------------------------------------------------------
  // Keeping the magnifier monitor free of other windows
  // ---------------------------------------------------------------------

  /** What the enumeration learns about one top-level window. `rect` is None
      when the window rectangle cannot be read. */
  datatype TopWindow = TopWindow(
    isWindow: bool,
    isMagnifierWindow: bool,
    isRoot: bool,
    isChild: bool,
    isToolWindow: bool,
    visible: bool,
    ownProcess: bool,
    onMagnifierMonitor: bool,
    rect: Option<Rect>)

  /** The windows that are moved: real, visible, top-level, not tool
      windows, not this program's, and on the magnifier monitor. */
  predicate MovedWindow(w: TopWindow) {
    w.isWindow && !w.isMagnifierWindow && w.isRoot && !w.isChild && !w.isToolWindow
    && w.visible && !w.ownProcess && w.onMagnifierMonitor && w.rect.Some?
  }

  predicate IsRectEmpty(r: Rect) {
    r.right <= r.left || r.bottom <= r.top
  }

  /** The source monitor's work area, or its bounds when the work area is empty. */
  function TargetArea(source: Monitor): (a: Rect)
    ensures !IsRectEmpty(source.workArea) ==> a == source.workArea
    ensures IsRectEmpty(source.workArea) ==> a == source.bounds
  {
    if IsRectEmpty(source.workArea) then source.bounds else source.workArea
  }

  /** One axis of the new position: when the window is smaller than a
      non-empty area it is clamped inside it, otherwise it goes to the area's
      start. */
  function PlaceAxis(lo: int, size: int, areaLo: int, areaHi: int): (p: int)
    ensures areaHi - areaLo > 0 && size < areaHi - areaLo ==> areaLo <= p && p + size <= areaHi
    ensures areaHi - areaLo > 0 && size < areaHi - areaLo && areaLo <= lo && lo + size <= areaHi ==> p == lo
    ensures !(areaHi - areaLo > 0 && size < areaHi - areaLo) ==> p == areaLo
  {
    if areaHi - areaLo > 0 && size < areaHi - areaLo then ClampInt(lo, areaLo, areaHi - size) else areaLo
  }

  /** The new top-left corner of a window, keeping its size. */
  function Placement(window: Rect, area: Rect): (p: Point)
    ensures p.x == PlaceAxis(window.left, window.Width(), area.left, area.right)
    ensures p.y == PlaceAxis(window.top, window.Height(), area.top, area.bottom)
  {
    Point(PlaceAxis(window.left, window.Width(), area.left, area.right),
          PlaceAxis(window.top, window.Height(), area.top, area.bottom))
  }

  function MovedTo(window: Rect, p: Point): Rect {
    Rect(p.x, p.y, p.x + window.Width(), p.y + window.Height())
  }

  /** A window that fits in a non-empty area ends up wholly inside it, and
      one already inside stays where it is. */
  lemma PlacementInside(window: Rect, area: Rect)
    requires 0 <= window.Width() < area.Width() && 0 <= window.Height() < area.Height()
    ensures var m := MovedTo(window, Placement(window, area));
      area.left <= m.left && m.right <= area.right && area.top <= m.top && m.bottom <= area.bottom
    ensures area.left <= window.left && window.right <= area.right
         && area.top <= window.top && window.bottom <= area.bottom
      ==> Placement(window, area) == Point(window.left, window.top)
  {
  }

  /** Moving a window twice puts it where the first move did. */
  lemma PlacementIdempotent(window: Rect, area: Rect)
    ensures var p := Placement(window, area);
      Placement(MovedTo(window, p), area) == p
  {
  }

  /** Where the enumeration moves each window, None for the ones it skips. */
  function Relocations(windows: seq<TopWindow>, source: Monitor): (r: seq<Option<Point>>)
    ensures |r| == |windows|
    ensures forall i :: 0 <= i < |windows| ==>
      (r[i].Some? <==> MovedWindow(windows[i]))
      && (r[i].Some? ==> r[i].value == Placement(windows[i].rect.value, TargetArea(source)))
  {
    seq(|windows|, i requires 0 <= i < |windows| =>
      if MovedWindow(windows[i]) then Some(Placement(windows[i].rect.value, TargetArea(source))) else None)
  }
}
