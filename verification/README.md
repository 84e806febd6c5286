# Viewport controller of a two-monitor screen magnifier, in Dafny

The magnifier captures one monitor (the *source*) and shows an enlarged part
of it on a second monitor (`\\.\DISPLAY2`, the *magnifier* monitor). The
core is the controller in `App` that decides, every 16 ms, which part of
the captured frame to show. Its inputs are four:

- the text caret, the pointer and the keyboard focus, each with the tick
  at which it was last reported;
- left clicks, which lock the view near the click and can open a
  "messenger zone" over the input strip of a chat application;
- the End key, which after a one-second hold aligns the view to the
  bottom-left corner of a PuTTY window;
- zoom and mode commands, a one-slot history of big jumps, and the
  settings file.

The model is functional. An immutable `State` record holds every field the
controller keeps. One pure function per event or command maps a state to
its successor. `Update` is the timer handler: it does nothing while the magnifier is stopped or no frame was acquired, and otherwise runs `Tick`, the whole per-tick pipeline:

1. suppression;
2. arbitration;
3. terminal alignment;
4. snap or glide through the click limiter;
5. messenger-zone clamp;
6. final clamp;
7. the outward-rounded output rectangle.

Beside the controller the model covers three further pieces of the same
program:

- the monitor selection (`\\.\DISPLAYn` parsing and the source preference
  order);
- the window rules (case-insensitive name matching, and moving foreign
  windows off the magnifier monitor);
- the settings file: the string searches of `Config::Load`, the text
  written by `Config::Save`, and the proof that the first reads back what
  the second writes.

Modules, in dependency order:

- `Options`: option type.
- `Ticks`: 64-bit tick arithmetic.
- `Geometry`: points, rectangles, monitors, screen-to-frame mapping, clamps and rounding.
- `ControllerState`: state, constants, initial state, view extent, final clamp and output rectangle.
- `Arbitration`: the target of a tick.
- `Smoothing`: click limiter, snap, glide and history.
- `Zones`: End key, terminal alignment, messenger zone and input events.
- `ViewUpdate`: the tick.
- `Commands`: zoom, mode cycle, restore, reset, start and stop, and recenter on caret.
- `KeyHook`: the keyboard hook's End-key handling and recenter on key presses.
- `MonitorSelection`.
- `WindowRules`.
- `TextSearch`: the `std::string` searches.
- `Config`.
- `ConfigRoundTrip`.
- `Settings`: the settings writes of the zoom and mode commands, and start-up from the saved file.

Representation choices:

- Floating-point numbers are Dafny `real`s.
- Wide strings (`std::wstring`) are sequences of Unicode scalar values, not of 16-bit UTF-16 code units; a character above U+FFFF stands for the surrogate pair the program would hold, and its narrowing has no counterpart in the program.
- Tick counts are `nat`s. ULONGLONG subtraction is written out modulo 2^64 (`Ticks.Elapsed`).
- `sqrt` comparisons become squared-distance comparisons.
- C integer division, `std::lround`, `std::floor`/`std::ceil` and `std::clamp` are written out.
- Queries to the operating system become parameters:
  - whether the foreground window is PuTTY or a messenger;
  - the foreground window rectangle;
  - the frame size;
  - the current tick;
  - the contents of the settings file;
  - `std::stof`;
  - float formatting.

## Model

| member | source | states |
|---|---|---|
| Geometry.ScreenToSource | src/app.cpp:1394-1406 | No mapping without a source monitor or for a point outside the half-open bounds; otherwise the offset from the monitor's top-left corner times its scale |
| Geometry.ScreenToSourceInFrame | src/app.cpp:1394-1406 | A mapped point lies in `[0, width*scale) x [0, height*scale)` of the source frame |
| Geometry.ScreenToSourceInjective | src/app.cpp:1394-1406 | Two screen points with the same mapping are the same point, so a mapped click or caret identifies its screen point |
| Geometry.LRound | src/app.cpp:1428 | `std::lround`: within one half of its argument, halves rounded away from zero |
| Geometry.HalfTowardZero | src/app.cpp:637-638 | C `LONG / 2` truncates toward zero, for negative widths too |
| Geometry.Ceil | src/app.cpp:829-830 | `std::ceil`: the least integer not below its argument |
| Ticks.Elapsed | src/app.cpp:761 | `now - since` on ULONGLONG: the true difference when `since` is not ahead, a wrapped (huge) value when it is |
| ControllerState.Initial | src/app.h:117-173 | The constructed controller: zoom 2 within `[1, 12]`, no source monitor, no center, no history, no click, no lock, no zone, End key up, no terminal anchor |
| ControllerState.InitialMapsNothing | src/app.h:117-118 | Until monitors are selected no screen point maps to the frame |
| ControllerState.ViewFor | src/app.cpp:739-746 | The view is the frame divided by the zoom and never exceeds the frame |
| ControllerState.ClampCenter | src/app.cpp:821-822 | The final clamp puts the center in `[half_w, fw-half_w] x [half_h, fh-half_h]` and leaves a center already there alone |
| ControllerState.SourceRegion | src/app.cpp:824-830 | Floor/ceil edges cover the real view rectangle and, for a clamped center, stay at or above 0 and within the integral frame size |
| ControllerState.RegionOfClampedCenterInFrame | src/app.cpp:821-830 | For a clamped center the output rectangle lies in `[0, fw] x [0, fh]` |
| Arbitration.Arbitrate | src/app.cpp:646-737 | Manual or suppressed input gives no target (the frame middle); a caret target exists exactly when the mode allows it, the caret is fresh within 600 ms and maps, and is the mapped caret +4 px in x and stamps the caret-target tick with now; a mouse target needs a fresh (160 ms) mapped pointer and, in Auto, a pointer event newer than the last caret target, which it resets to 0; a focus target needs a fresh (900 ms) mapped focus-rectangle center; in Mouse mode a fresh mapped pointer, and in Focus mode a fresh mapped focus center, is always taken |
| Arbitration.CaretCandidate | src/app.cpp:658-676 | A caret candidate exists exactly when input is not suppressed, the caret is at most 600 ms old and maps; it is the mapped caret shifted 4 px right |
| Arbitration.MouseCandidate | src/app.cpp:678-698 | A pointer candidate exists exactly when input is not suppressed, the pointer is at most 160 ms old, in Auto its event is newer than the last caret target, and it maps; it is the mapped pointer |
| Arbitration.FocusCandidate | src/app.cpp:700-713 | A focus candidate exists exactly when input is not suppressed, the focus is at most 900 ms old and the center of its rectangle maps; it is that mapped center |
| Arbitration.AutoPriority | src/app.cpp:722-735 | In Auto the pointer is used only when no caret target exists, focus only when neither caret nor pointer does, and a pointer candidate without a caret candidate is always taken |
| Arbitration.AutoCaretBeatsMouse | src/app.cpp:658-697 | With both fresh, Auto follows the caret; once the caret is older than 600 ms the newer pointer wins |
| Smoothing.LimitClickMovement | src/app.cpp:1571-1605 | A no-op without a locked click; an unmappable click drops the lock and passes the point; otherwise the point is pinned to the click at elapsed 0 and clamped to `anchor ± 50·elapsed/1000` per axis, a point already in the box passes, and the resolved anchor is stored |
| Smoothing.RecordJump | src/app.cpp:790-797 | The center is saved as the previous one exactly when the jump is at least 160 px and there is no history or the last save is 500 ms old |
| Smoothing.SnapCenterTo | src/app.cpp:1607-1633 | The center becomes the target, limited unless the limiter is bypassed; without a center the history is untouched, with one it is saved under the jump rule; nothing else changes |
| Smoothing.Glide | src/app.cpp:782-803 | Inside the 16 px dead zone nothing changes; outside it the center moves to `center + 0.45·delta` through the limiter, the history is saved by the jump rule applied against the target (`RecordJump`), and the click record and lock end up as the limiter leaves them |
| Smoothing.GlideConverges | src/app.cpp:798-802 | Without a lock one glide keeps 55% of the offset per axis, so the squared distance shrinks by 0.3025 and never reaches 0 |
| Smoothing.Move | src/app.cpp:779-806 | With no center the first move is a limited snap to the target (the frame middle when there is none); a caret target snaps exactly, bypassing the limiter but applying the jump-history rule (`SnapCenterTo` with the limiter off); a pointer or focus target glides (`Glide`); no target or a target in the dead zone leaves the state alone |
| Smoothing.MoveStaysInClickBox | src/app.cpp:1590-1604 | Every limited move lands within the click box around the resolved click anchor |
| Zones.OnEndKeyDown | src/app.cpp:323-329 | A fresh press starts a hold at now and clears alignment, the ignore window and the anchor; a repeat leaves the End state alone (the recenter that every End press also triggers is `KeyHook.OnKey`) |
| Zones.OnEndKeyUp | src/app.cpp:330-334 | A release ends alignment at once and ignores signals for the next 500 ms; a release without a press changes nothing |
| Zones.CaptureTerminalAnchor | src/app.cpp:748-758 | The anchor becomes the mapped bottom-left pixel of a matching terminal window, and stays as it was otherwise |
| Zones.AlignmentAfter | src/app.cpp:760-766 | Alignment turns on only while End is held at least 1000 ms with an anchor, stays on while held, and is off once End is up |
| Zones.AlignedCenter | src/app.cpp:769-777 | The view's left edge is `clamp(anchor.x, 0, fw-vw)`, its bottom edge `clamp(anchor.y, vh, fh)`, and the center is in range |
| Zones.ZoneRange | src/app.cpp:808-811 | Each bound is the tighter of the zone's bound and the valid-center bound |
| Zones.ZoneRangeIsIntersection | src/app.cpp:808-811 | A center lies in the zone range exactly when it lies in the zone and keeps the view on the frame |
| Zones.ClampToMessengerZone | src/app.cpp:808-819 | With a non-empty intersection of the zone and the valid range the center is clamped into it (unchanged if already inside); otherwise the zone is dropped and the center kept |
| Zones.MessengerZoneExactly | src/app.cpp:1423-1453 | A zone exists exactly when the monitor is non-empty and the click is in the bottom strip across the full width; it is the right three quarters of the strip mapped to the frame |
| Zones.MessengerClickLeftOfZone | src/app.cpp:1432-1440 | A click in the strip left of the zone's left column still creates the zone and lies outside it |
| Zones.ZoneLeftEdge | src/app.cpp:1434-1447 | The zone's left edge is the quarter-width column mapped to the frame |
| Zones.MessengerZoneFor | src/app.cpp:1423-1453 | A zone is produced only for a non-empty monitor and a click inside its bottom strip |
| Zones.OnMouseMove | src/app.cpp:222-238 | The pointer and its tick are recorded; a real move drops the click lock; straying more than 10 px on an axis from the zone's click ends the zone; nothing else changes |
| Zones.OnCaret | src/app.cpp:217-221 | The caret and its tick are recorded and nothing else changes |
| Zones.OnFocus | src/app.cpp:239-243 | The focus rectangle and its tick are recorded and nothing else changes |
| Zones.OnLeftClick | src/app.cpp:1408-1455 | The click locks the view at the click with its mapped position; the old zone ends, and a new zone anchored at the click exists exactly when the foreground is a messenger, a source is selected and the click is in the strip |
| ViewUpdate.CursorView | src/app.cpp:626-652 | The cursor is shown exactly when the pointer maps, at its mapped position, with the invert flag copied |
| ViewUpdate.Prepare | src/app.cpp:642-766 | Arbitration runs on the state before the End stages; the anchor is dropped once End is up and its ignore window has passed, and is recaptured from the terminal window while End is held or alignment is on; alignment is off once End is up, stays on while End is held, and turns on exactly when a 1000 ms hold has an anchor |
| ViewUpdate.TickActivatesAlignment | src/app.cpp:748-777 | After End is held 1000 ms over a terminal window whose bottom-left corner maps, a tick turns alignment on, stores that mapped corner as the anchor and moves the view's left and bottom edges to it |
| ViewUpdate.TickAlignmentWaitsForHold | src/app.cpp:760-766 | Alignment that is off stays off after a tick while End is up or has been held less than 1000 ms |
| ViewUpdate.Position | src/app.cpp:768-819 | Alignment places the view at the anchor and ends the zone; otherwise the center is the smoother's move (`Move`) clamped into the messenger zone; a surviving zone holds the center in its range |
| ViewUpdate.Finish | src/app.cpp:821-831 | The center is clamped into the valid range and the output rectangle lies in the frame and covers the view |
| ViewUpdate.Update | src/app.cpp:579-612 | While the magnifier is stopped, or when no frame was acquired, nothing changes; otherwise the state is the tick's on the acquired frame, and the magnifier stays on |
| ViewUpdate.Tick | src/app.cpp:614-832 | Without a source or frame nothing changes; otherwise zoom, mode and source are kept, the center keeps the whole view on the frame, the output rectangle lies in the frame and covers the view, the cursor is shown exactly when the pointer maps, a zone only survives or ends, and alignment is off with End up |
| ViewUpdate.TickKeepsCenterInZone | src/app.cpp:808-822 | After a tick that keeps the messenger zone, the center lies in the zone rectangle |
| ViewUpdate.TickAlignsToTerminal | src/app.cpp:760-777 | While alignment is on after a tick, End is held, the view's left and bottom edges sit at the clamped anchor, and the zone is gone |
| ViewUpdate.TickFollowsCaret | src/app.cpp:614-832 | With End up, no suppression and no zone, a tick in Auto or Caret mode with a fresh mapped caret centers on the caret target clamped to the frame |
| ViewUpdate.TickGlidesToTarget | src/app.cpp:614-832 | With End up, no suppression, no zone and no click lock, a tick that selects a pointer or focus target outside the dead zone moves the center 45% of the way to it, then clamps it to the frame |
| ViewUpdate.ReleaseSuppressesSignals | src/app.cpp:330-334 | In the 500 ms after End is released no signal becomes a target |
| ViewUpdate.FirstCaretTickScenario | src/app.cpp:614-832 | 1920x1080 frame, zoom 2, no center, fresh caret at (500, 500): the center snaps to (504, 500) and the region is (24, 230)-(984, 770) |
| ViewUpdate.TerminalScenario | src/app.cpp:748-777 | End held 1200 ms over a terminal whose corner maps to (100, 1000): alignment on, center (580, 730) |
| Commands.ApplyConfig | src/app.cpp:197-206 | The configured zoom is clamped to `[1, 12]`; mode and invert flag are taken over, the caret-target tick and the anchor are reset |
| Commands.ApplyConfigIdempotent | src/app.cpp:197-206 | Applying the same settings twice is applying them once |
| Commands.ChangeZoom | src/app.cpp:915-923 | The new zoom is `clamp(zoom + delta, 1, 12)`; if it differs from the old one by less than 0.001 nothing changes, otherwise it is applied and the center is dropped for a recenter; zooming in never lowers the zoom and zooming out never raises it |
| Commands.ZoomSaturates | src/app.cpp:916-919 | Zooming in at 12 or out at 1 changes nothing |
| Commands.ZoomInThenOutRestores | src/app.cpp:915-923 | Zooming by delta and back by -delta inside the range restores the zoom, with the center dropped |
| Commands.NextMode | src/app.cpp:894-904 | The next mode differs from the current one |
| Commands.CycleTrackingMode | src/app.cpp:894-904 | Only the mode changes, to the next in the cycle |
| Commands.CycleHasPeriodFive | src/app.cpp:894-904 | Five presses return to the start and the first five visit all five modes |
| Commands.RestorePreviousCenter | src/app.cpp:1670-1685 | No history, no effect; otherwise the previous center becomes current, the current one (if any) becomes previous, and the cooldown restarts |
| Commands.RestoreTwiceIsIdentity | src/app.cpp:1670-1685 | Two restores give back the original center and history |
| Commands.ClearCenterHistory | src/app.cpp:1687-1696 | Center, history, click, lock and zone are all cleared and nothing else changes |
| Commands.ResetSnapsExactly | src/app.cpp:1608-1633 | After a reset the next move lands exactly on its target and records no history |
| Commands.CenterOnCaretNow | src/app.cpp:1635-1668 | With the magnifier on, a non-Manual mode, a frame and a mapped caret, the center becomes the clamped caret target, bypassing the limiter, the caret-target tick becomes now, the jump history follows the jump rule against the unclamped target, and nothing else changes; otherwise nothing changes at all |
| Commands.RecenterTwiceSameCenter | src/app.cpp:1635-1668 | A second recenter at once keeps the center the first one set |
| Commands.StartMagnifier | src/app.cpp:546-565 | The source is the selected one, or the new selection when there is none; a failed selection or set-up leaves everything else alone; a successful start shows the magnifier and clears center, history, click, lock and zone, and nothing else |
| Commands.StopMagnifier | src/app.cpp:567-577 | The magnifier is hidden and center, history, click, lock and zone are cleared; nothing else changes |
| Commands.StoppedIgnoresRecenter | src/app.cpp:1635-1638 | After a stop, a recentering key press changes nothing |
| Commands.StoppedIgnoresTick | src/app.cpp:584-586 | After a stop, timer ticks leave the controller alone |
| Commands.StartThenRecenter | src/app.cpp:546-565 | Right after a successful start a recentering key press lands on the clamped caret target and records no history |
| Commands.StartFromInitial | src/app.cpp:197-206 | Applying the settings to the initial state and then starting only selects the source and shows the magnifier |
| KeyHook.OnKey | src/app.cpp:323-349 | End presses and releases update the End state; a Windows-key release or a press of any non-modifier key (End and its repeats included) recenters on the caret outside Manual mode; other modifier events and other releases change nothing; the End stage followed by `CenterOnCaretNow` is the whole effect, so every other field keeps its value |
| KeyHook.EndRepeatRecenters | src/app.cpp:323-348 | An auto-repeated End press keeps the hold, alignment and anchor, and recenters on the caret |
| KeyHook.RecenterAgreesWithTick | src/app.cpp:1635-1668 | A tick that follows the same fresh caret leaves the recentered center where it is |
| MonitorSelection.DigitRun | src/app.cpp:465-466 | The length of the leading digit run: all digits, followed by a non-digit or the end |
| MonitorSelection.DisplayNumber | src/app.cpp:456-471 | The number is -1 or in `[1, LONG_MAX]` |
| MonitorSelection.NumeralValue | src/app.cpp:466 | The decimal digits of n read back as n |
| MonitorSelection.DigitRunOfDigits | src/app.cpp:466 | The digit run of digits followed by a non-digit is exactly the digits |
| MonitorSelection.DisplayNumberOfName | src/app.cpp:456-471 | `\\.\DISPLAYn` followed by nothing or a non-digit reads as n, for every n in `[1, LONG_MAX]` |
| MonitorSelection.SelectMonitors | src/app.cpp:435-523 | Fails exactly when there are fewer than two monitors or no DISPLAY2; otherwise the magnifier is the first DISPLAY2, the source differs from it, and the source is the first monitor with the configured name unless that is the magnifier, else the first other primary monitor, else the first other monitor |
| WindowRules.LowerChar | src/app.cpp:1462-1465 | `towlower` on ASCII letters, identity elsewhere |
| WindowRules.Lower | src/app.cpp:1462-1465 | Lowers every character and keeps the length |
| WindowRules.LowerIdempotent | src/app.cpp:1462-1465 | Lowering twice is lowering once |
| WindowRules.Find | src/app.cpp:1491 | True exactly when the pattern occurs somewhere in the text |
| WindowRules.LoweredPatterns | src/app.cpp:1467-1482 | Every kept pattern is non-empty and already lower-case |
| WindowRules.ContainsPatternCheck | src/app.cpp:1484-1496 | True exactly when the non-empty text contains one of the lowered patterns, ignoring case |
| WindowRules.Truncate | src/app.cpp:1519-1531 | The prefix the 256-character buffer holds |
| WindowRules.WindowMatchesPatterns | src/app.cpp:1457-1538 | True exactly when a window exists, some pattern is non-empty and one occurs, ignoring case, in the image path, the truncated title or the truncated class name |
| WindowRules.OccurrenceMatches | src/app.cpp:1457-1538 | A title containing any non-empty pattern, ignoring case on both sides, matches |
| WindowRules.PatternKept | src/app.cpp:1467-1478 | Every non-empty pattern survives lowering in the kept list |
| WindowRules.PuttyTitleMatches | src/app.cpp:1555-1561 | A window titled "PuTTY" is recognised as a terminal |
| WindowRules.TargetArea | src/app.cpp:1285-1288 | The source work area, or the source bounds when the work area is empty |
| WindowRules.PlaceAxis | src/app.cpp:1290-1303 | A window smaller than a non-empty area is clamped inside it and stays if already inside; otherwise it goes to the area's start |
| WindowRules.Placement | src/app.cpp:1290-1303 | Each coordinate of the new corner is placed on its own axis |
| WindowRules.PlacementInside | src/app.cpp:1290-1303 | A window that fits ends up wholly inside the area, and one already inside does not move |
| WindowRules.PlacementIdempotent | src/app.cpp:1290-1303 | Moving a window a second time leaves it where the first move put it |
| WindowRules.Relocations | src/app.cpp:1243-1308 | A window is moved exactly when it is a visible, real, top-level, non-tool, foreign window on the magnifier monitor with a readable rectangle, and it goes to its placement in the target area |
| TextSearch.IndexOf | src/config.cpp:27 | `find`: the first match at or after the start, or none when there is no match |
| TextSearch.FindChar | src/config.cpp:31 | `find` of one character: its first position at or after the start |
| TextSearch.FirstOf | src/config.cpp:52 | `find_first_of`: the first position holding one of the characters |
| TextSearch.Substr | src/config.cpp:53 | `substr`, which stops at the end of the text |
| TextSearch.FindInQuoted | src/config.cpp:27 | In quote-separated text, `"k"` is found at the first segment equal to k |
| TextSearch.FindSegment | src/config.cpp:27 | The same, with a quote-free prefix before the segments |
| Config.NarrowChar | src/config.cpp:112-114 | Writing a wide character keeps its low eight bits |
| Config.WidenChar | src/config.cpp:40 | Reading a byte through a signed `char` keeps ASCII and sign-extends bytes from 128 into 0xFF80..0xFFFF |
| Config.NarrowWidenExactly | src/config.cpp:40 | A name survives being written and read back exactly when each character is ASCII or in 0xFF80..0xFFFF |
| Config.QuotedValueFrom | src/config.cpp:31-39 | The text between two quotes holds no quote |
| Config.RawString | src/config.cpp:26-41 | A string value holds no quote, and a missing key gives no value |
| Config.ReadString | src/config.cpp:26-41 | A missing value reads as the empty string; otherwise each stored byte is widened through a signed `char` |
| Config.RawToken | src/config.cpp:48-53 | A number or boolean token holds no comma, brace or line break, and a missing key gives no token |
| Config.ReadFloat | src/config.cpp:43-59 | The result is the fallback unless the token exists and parses, and then it is the parsed number |
| Config.ReadBool | src/config.cpp:61-79 | The fallback unless the token exists; a token containing "true" reads true, one containing "false" but not "true" reads false |
| Config.ModeName | src/config.cpp:116-123 | Each mode is saved under one of the five names, and only Auto under "Auto" |
| Config.ModeFromName | src/config.cpp:88-99 | Exactly the names Caret, Mouse, Focus and Manual load as a mode other than Auto |
| Config.ModeNamesRoundTrip | src/config.cpp:88-123 | Every mode's saved name loads as that mode, and only the five names load as a non-Auto mode |
| Config.Load | src/config.cpp:17-101 | An unreadable file changes nothing; otherwise both names are replaced, and zoom and flags keep their values when their key is missing |
| Config.Startup | src/config.cpp:10-13 | Without a readable file the settings are the defaults with Auto tracking |
| Config.LoadWithoutKeys | src/config.cpp:81-99 | A file without any key clears both names and resets the mode to Auto, keeping zoom and flags |
| Config.Save | src/config.cpp:104-135 | The text opens with `{` and closes with `}`, each on its own line; what it holds per field is stated by `ConfigRoundTrip.SaveLoadRoundTrip` |
| ConfigRoundTrip.ReadValueAt | src/config.cpp:26-41 | A key followed by `:`, a quote, the value and a quote reads as that value |
| ConfigRoundTrip.ReadTokenAt | src/config.cpp:43-53 | A key followed by `:`, a terminator-free token and a terminator reads as that token |
| ConfigRoundTrip.StringField | src/config.cpp:26-41 | In a quote-separated document each string field reads as its value segment when its key occurs first there |
| ConfigRoundTrip.TokenField | src/config.cpp:43-53 | The same for number and boolean fields |
| ConfigRoundTrip.SaveIsQuoted | src/config.cpp:125-133 | The saved text is an opening followed by quote-separated segments, one group per line |
| ConfigRoundTrip.NarrowedName | src/config.cpp:112-114 | A storable name is written as quote-free text that is not a key and reads back as the name |
| ConfigRoundTrip.BoolTextReads | src/config.cpp:61-79 | The written ` true` contains "true", and the written ` false` contains "false" but not "true" |
| ConfigRoundTrip.SavedSourceMonitor | src/config.cpp:81 | The saved source name reads back as its written bytes |
| ConfigRoundTrip.SavedMagnifierMonitor | src/config.cpp:82 | The saved magnifier name reads back as its written bytes |
| ConfigRoundTrip.SavedZoom | src/config.cpp:83 | The zoom token reads back as the formatted zoom after a space |
| ConfigRoundTrip.SavedMode | src/config.cpp:88 | The mode name reads back unchanged |
| ConfigRoundTrip.SavedBlockCursor | src/config.cpp:84 | The block-cursor token reads back as the written boolean |
| ConfigRoundTrip.SavedAutoLaunch | src/config.cpp:85 | The auto-launch token reads back as the written boolean |
| ConfigRoundTrip.SavedInvertColors | src/config.cpp:86 | The invert-colors token reads back as the written boolean |
| ConfigRoundTrip.SaveLoadRoundTrip | src/config.cpp:81-135 | Loading what was saved gives the saved settings, whatever was loaded before, when both names are storable and the zoom text parses back to the zoom |
| Settings.ZoomCommand | src/app.cpp:915-923 | The controller changes as `ChangeZoom` says; the new zoom is written into the settings exactly when it was applied; a controller in step with its settings stays in step |
| Settings.ModeCommand | src/app.cpp:894-913 | The mode advances and the new mode is written into the settings; a controller in step with its settings stays in step |
| Settings.RestartRestores | src/app.cpp:197-200 | Saving settings that agree with the controller and starting again restores its zoom, mode and invert flag, for storable names and a zoom text that parses back |
| Settings.ZoomSurvivesRestart | src/app.cpp:915-923 | A zoom reached with the zoom commands goes through `Save` and `Load` and is applied unchanged at the next start |
| Settings.ModeSurvivesRestart | src/app.cpp:906-913 | A mode chosen with the mode-cycle command goes through `Save` and `Load` and is applied unchanged at the next start |

## Notes on the code

- A caret target snaps with the click limiter bypassed. Only the very first snap, when there is no center yet, is limited (`Smoothing.Move`).
- With no center and no target, the first snap goes to the frame middle.
- A messenger click is accepted across the full width of the bottom strip, but the zone covers only its right three quarters, so the click can lie outside the zone it creates (`Zones.MessengerClickLeftOfZone`).
- `read_string` searches for the opening quote from `find(':') + 1`. When no colon follows the key, that is `npos + 1`, which wraps to 0, so the search starts at the beginning of the text (`Config.ValueSearchStart`).
- `Save` writes the low byte of each wide character, and `Load` widens each byte through a signed `char`. Names with other characters come back changed (`Config.NarrowWidenExactly`).
- `Load` finds `"key"` anywhere in the text, at its first occurrence. A monitor name equal to a key name can therefore be found before the real key, and that field is then read from whatever follows the name. With the source name `zoom`, the name itself reads back, but `read_float` takes the text after the colon of `"magnifierMonitor"`: the quoted magnifier name, which does not parse, so the zoom keeps its old value. Not every collision does harm: with the source name `magnifierMonitor` the next colon is still that key's own, and every field reads back. A name holding a quote breaks the quoting of the fields after it. The round-trip lemma excludes both kinds of name.

## Left out

- Capture, rendering, the tray, dialogs, logging, hooks and hotkey registration are operating-system plumbing. Caret, pointer, focus and key events enter the model as already timestamped events.
- Calls into the operating system become parameters of the functions that use them:
  - the foreground-window queries (`IsPuttyProcess`, `IsMessengerProcess`, `GetForegroundWindowRectIfMatches`);
  - the process image, title and class lookups;
  - `GetTickCount64`;
  - the frame size;
  - monitor enumeration;
  - the file contents.
- `SetWindowPos`, `EnumWindows`, `ClipCursor`, cursor blocking, restarts, inactivity handling and status badges are left out. `Relocations` computes where windows would go.
- `SwapMonitors` and the window, capture and cursor work in `StartMagnifier`/`StopMagnifier` are left out; their effect on the controller is `Commands.StartMagnifier`, `Commands.StopMagnifier` and `ClearCenterHistory`. The activation at the end of start-up (src/app.cpp:428) is `Commands.StartFromInitial`.
- The key hook's cursor-bypass, Ctrl+Alt blocking and exit chord are left out (cursor blocking and process exit). Its caret refresh request is asynchronous and left out: the recenter uses the last reported caret.
- The write-back of the chosen monitor names to the settings file at the end of monitor selection is left out (file I/O).
- IEEE single-precision rounding is not modelled, since numbers are reals. In particular 0.45f is taken as exactly 0.45, and the dead-zone and history thresholds are compared on squared distances instead of `sqrt`.
- `towlower` is modelled on ASCII letters only, and `iswdigit` on ASCII digits only.
- Text-mode stream translation (CR/LF, Ctrl-Z) of the settings file is not modelled. The file is its characters.
- `std::stof` and float output are parameters. `ConfigRoundTrip.SaveLoadRoundTrip` assumes of them only that the written zoom text has no quote or terminator and parses back to the zoom.
- The sum `now + 500` for the End-key ignore window does not wrap in the model. Ticks near 2^64 are not reached in practice.
