# mononcgif: a verified model of its interaction logic

mononcgif is a small desktop tool that records a region of the screen and turns
it into an optimised animated GIF. The user picks a screen, drags a rectangle on
a transparent overlay, the region is recorded with `recordmydesktop`, then a
window lets the user trim the recording with two sliders and export it through
`ffmpeg` (remux, palette generation, palette use) and `gifsicle`.

This project models, in Dafny, the parts of `mononcgif/mononc.py` that carry
logic:

- `region_select.dfy` (module `RegionSelect`): the overlay's state machine over
  the optional points `_init_pos` / `_cur_pos`. The pure transition function
  `Step` specifies the class `SelectRegionWindow`, whose methods update the two
  fields in place, one method per event (press, move, release, key).
- `capture.dfy` (module `Capture`): `_App._region_accepted`, turning the two
  points into the capture rectangle, and the recorder's exit code check in
  `_capture_video`.
- `screen_picker.dfy` (module `ScreenPicker`): the single-screen shortcut, the
  loop that builds one `<width>x<height>` button per screen, and what a click
  chooses.
- `trimming.dfy` (module `Trimming`): `_start` / `_end` of the create-GIF
  window, set by `_duration_changed` and coupled by the two slider handlers;
  class `TrimWindow` updates them in place, specified by `StartMoved` /
  `EndMoved`.
- `export.dfy` (module `Export`): `_App._create_gif` as a straight-line method
  `CreateGif`, specified by the function `Export`, which folds over the stages'
  exit codes with `FirstFailure`.
- `errors.dfy`, `numerals.dfy`, `geometry.dfy`, `wrappers.dfy`: `_error`
  (a line on standard error, exit status 1), Python's `str(int)` with the
  reading that undoes it, points and rectangles, and `Option`.

The programs the tool runs, and the toolkit, are not modelled: an external
program is represented only by the exit code it returns (the parameter
`recordExitCode`, or `run: Stage -> int`), and toolkit events are the calls of
the handler methods.

Where the code enforces less than its structure suggests, the model follows the
code:

- The selection's "end at or below-right of origin" invariant is kept only by the
  move handler; the release handler takes the pointer position unchecked (see
  Findings).
- The trim range starts as `[0, duration - 1]`, not `[0, duration]`, so, as the
  fields are set at lines 276-278 of `mononcgif/mononc.py`, `start <= end` holds
  after initialisation only for a duration of at least 1 ms. For a zero
  duration the sliders' `setMaximum(-1)` at lines 279-280 then moves both
  sliders to -1, and both handlers run with -1, ending at `start = end = -1`;
  that toolkit behaviour is not modelled (see Left out).
- The two points of the region are positions on the overlay, relative to its
  top-left corner, but they are handed to the recorder as desktop coordinates
  (see Findings).
- The colour count is read from its text field only after the three `ffmpeg`
  stages have run, so an unreadable colour count fails the run late, with no copy.
- A slider moved before the duration is known assigns its own endpoint and then
  raises, because the other endpoint does not exist yet; the model keeps both
  endpoints optional to show this.

## Model

| member | source | states |
|---|---|---|
| `RegionSelect.Step` | mononcgif/mononc.py:94-122 | a press makes a zero-size ordered selection at the press point; a move keeps an ordered selection ordered and its origin fixed; keys never change the selection; Enter/Return accepts exactly when both points exist, reporting exactly those points; only Escape ends the program |
| `RegionSelect.DragFollowsDominatingMoves` | mononcgif/mononc.py:104-111 | during a drag the origin stays put and the corner is the last move point at or below-right of the origin (or the previous corner when none is) |
| `RegionSelect.PressThenDragIsOrdered` | mononcgif/mononc.py:94-111 | whatever the earlier selection, after a press at p followed only by moves the origin is p and the corner is at or below-right of it on both axes |
| `RegionSelect.ReleaseCanInvertRegion` | mononcgif/mononc.py:100-102 | press at (10,10), release at (5,5), Enter: the accepted corner is above and left of the origin |
| `RegionSelect.GuardedStep` | mononcgif/mononc.py:100-111 | the release handler with the move handler's guard: it keeps "once an origin exists, the corner does too and is at or below-right of it", and handles every other event as `Step` does |
| `RegionSelect.GuardedAcceptsOnlyOrdered` | mononcgif/mononc.py:104-111 | with the move guard applied to releases too, every accepted region, after any event sequence, has its corner at or below-right of its origin |
| `RegionSelect.SelectRegionWindow.constructor` | mononcgif/mononc.py:65-66 | the window opens with neither point set |
| `RegionSelect.SelectRegionWindow.MousePress` | mononcgif/mononc.py:94-98 | both points become the press position |
| `RegionSelect.SelectRegionWindow.MouseRelease` | mononcgif/mononc.py:100-102 | the corner becomes the release position with no check; without an origin the handler raises |
| `RegionSelect.SelectRegionWindow.MouseMove` | mononcgif/mononc.py:104-111 | a move above or left of the origin changes nothing; any other move sets the corner; without an origin the handler raises |
| `RegionSelect.SelectRegionWindow.KeyPress` | mononcgif/mononc.py:113-124 | Escape ends the program with "Cancelled by user" and status 1; Enter/Return before both points exist is a no-op, otherwise it closes the window and reports the two points once; other keys are passed on |
| `Capture.CaptureRect` | mononcgif/mononc.py:368-372 | the rectangle's top-left corner is the origin and its far corner the current point; width and height are non-negative exactly when the current point is at or below-right of the origin |
| `Capture.ScreenCaptureRect` | mononcgif/mononc.py:368-372 | with the overlay moved to the screen's position, the area the two overlay points mark on the desktop has the points moved by that position as its corners; on a screen at (0,0) it is the rectangle as written |
| `Capture.ScreenCaptureWithinScreen` | mononcgif/mononc.py:68-75 | two points on the overlay, the corner at or below-right of the origin, mark an area of non-negative size inside the screen |
| `Capture.OffsetScreenCapturesElsewhere` | mononcgif/mononc.py:368-384 | on a screen at (1920,0), a drag from (10,10) to (110,110) on its overlay hands the recorder the area at (10,10), which is not on that screen, instead of the area at (1930,10) |
| `Capture.CaptureRectOfCorners` | mononcgif/mononc.py:368-372 | a rectangle is the capture rectangle of exactly its own two corners |
| `Capture.RegionAccepted` | mononcgif/mononc.py:368-392 | a non-zero recorder exit code ends the program with status 1 and "recordmydesktop returned <code>"; exit code 0 opens the trim window on the capture rectangle |
| `Capture.DragScenario` | mononcgif/mononc.py:94-122 | a drag from (100,100) to (500,400) confirmed with Enter captures the 400x300 area at (100,100) |
| `Capture.CancelNeverCaptures` | mononcgif/mononc.py:113-116 | Escape ends the program with "Error: Cancelled by user" and status 1 and accepts no region |
| `ScreenPicker.Label` | mononcgif/mononc.py:150-151 | the text has exactly one 'x', right after the width's digits |
| `ScreenPicker.LabelReadsBack` | mononcgif/mononc.py:150-151 | a button's text reads back as exactly its screen's width and height |
| `ScreenPicker.LabelsDistinguishSizes` | mononcgif/mononc.py:150-151 | two screens get the same button text exactly when their sizes are equal, whatever their positions |
| `ScreenPicker.MakeButtons` | mononcgif/mononc.py:149-155 | one button per geometry, in enumeration order, labelled with that geometry's size and bound to it |
| `ScreenPicker.Open` | mononcgif/mononc.py:131-167 | exactly one screen is chosen at once; otherwise there are as many buttons as screens, button i is exactly `ButtonFor(screen i)`: bound to screen i, with the text `<width>x<height>` of screen i, which reads back as screen i's size |
| `Trimming.Initialised` | mononcgif/mononc.py:275-278 | the range starts at 0 and covers the `duration` millisecond positions 0 .. duration - 1; it is ordered exactly when the duration is at least 1 |
| `Trimming.StartMoved` | mononcgif/mononc.py:293-303 | the start becomes v and the end becomes max(end, v), so start <= end; the end changes only when v passes it; before the end exists the handler raises |
| `Trimming.EndMoved` | mononcgif/mononc.py:305-315 | the end becomes v and the start becomes min(start, v), so start <= end; the start changes only when v passes it; before the start exists the handler raises |
| `Trimming.InitialNotificationIsNoOp` | mononcgif/mononc.py:279-281 | the end handler notified by `setValue` during initialisation leaves a non-empty recording's range unchanged |
| `Trimming.SlidesStayWithin` | mononcgif/mononc.py:293-315 | any sequence of slider moves within [lo, hi] keeps an ordered range within [lo, hi] ordered and within [lo, hi] |
| `Trimming.InitialisedThenSlides` | mononcgif/mononc.py:268-315 | after initialisation from a duration of at least 1, slider moves within the sliders' range keep 0 <= start <= end <= duration - 1 |
| `Trimming.TrimWindow.constructor` | mononcgif/mononc.py:170-177 | the window opens with neither endpoint set and the duration notification connected |
| `Trimming.TrimWindow.DurationChanged` | mononcgif/mononc.py:275-287 | sets the range as `Initialised` does and disconnects the duration notification |
| `Trimming.TrimWindow.SliderStartValueChanged` | mononcgif/mononc.py:293-303 | updates the two fields as `StartMoved` does |
| `Trimming.TrimWindow.SliderEndValueChanged` | mononcgif/mononc.py:305-315 | updates the two fields as `EndMoved` does |
| `Export.Export` | mononcgif/mononc.py:394-447 | at most four stages start; a failure names the last stage started, which returned non-zero; a copy happens only after four stages started and the last returned 0 |
| `Export.FirstFailure` | mononcgif/mononc.py:398-433 | the index of the first stage with a non-zero exit code: every earlier stage returned 0 |
| `Export.CreateGif` | mononcgif/mononc.py:394-447 | the outcome and the stages started are those of `Export`, the fold over the stages' exit codes |
| `Export.ExportedIffAllSucceed` | mononcgif/mononc.py:443-447 | the GIF is copied exactly when every field is readable and all four stages return 0, and then all four stages ran |
| `Export.StopsAtFirstFailure` | mononcgif/mononc.py:398-444 | on a failure, the failing stage is the last one started, all earlier ones returned 0, and the program ends with status 1 naming the tool and its code |
| `Export.StagesInOrder` | mononcgif/mononc.py:394-441 | stages start in the order remux, palette generation, palette use, optimisation; both palette stages get the same trim window, frame rate and width from the form; the optimiser gets the colour count |
| `Export.LateColorsFailure` | mononcgif/mononc.py:435-438 | an unreadable colour count is noticed only after the three ffmpeg stages ran and succeeded, and nothing is copied |
| `Export.OrderedRangeGivesNonNegativeLength` | mononcgif/mononc.py:395-412 | with an ordered trim range, both palette stages get a non-negative length |
| `Errors.ErrorExit` | mononcgif/mononc.py:33-35 | the program ends with status 1 and standard error gets exactly "Error: ", the message and a newline |
| `Errors.ToolFailed` | mononcgif/mononc.py:391-392 | a failing tool (here and for each export stage) ends the program with status 1, and the diagnostic has the length of "Error: ", the tool's name, " returned ", the code's digits and a newline, and ends with the newline; its text is stated by `ToolFailedReportsCode` |
| `Numerals.IntToString` | mononcgif/mononc.py:150-151 | `str` of an integer is non-empty and made of decimal digits, with a leading minus sign exactly when the integer is negative, and without leading zeros (zero is "0") |
| `Errors.ToolFailedReportsCode` | mononcgif/mononc.py:33-35 | a failing tool ends the program with status 1 and the line "Error: <tool> returned <code>": it starts with "Error: ", the tool's name and " returned ", and the exit code reads back from the rest of the line |
| `Numerals.ParseIntToString` | mononcgif/mononc.py:392 | the decimal text `str` gives any integer reads back to that integer |

## Left out

- Widget construction, layouts, styling, the overlay's drawing (`_update_overlay`'s geometry calls), the cursor, window showing, closing and centring (`_CenterableWindow._center`): toolkit calls with no logic beyond "the window closes", which the region window's `closed` field records.
- Event delivery by the toolkit: a closed window receives no events, which the region window's `requires !closed` states; the toolkit's rule that moves arrive only while a button is held is not assumed, so a move before any press is modelled as the handler raising.
- Qt's own slider behaviour: the handlers take any integer; the clamping of slider values to their range is the hypothesis of `InitialisedThenSlides`, and what `setMaximum(-1)` does to a slider for a zero duration is not modelled.
- Media playback (`QMediaPlayer`, playlist, `setPosition`), the video-width read from the media metadata into the width field, and the GIF preview with its file-size label (`set_gif_preview`): foreign library calls and file-system reads.
- Seconds conversion and formatting (`/ 1000`, `'{:.3f}'`, `str(float)` in ffmpeg arguments): floating point; the model keeps integer milliseconds, and the clip length `end - start` is in milliseconds.
- The text fields' `int(...)` parsing: a field is represented by what `int()` yields, `None` when it raises; the text itself is not modelled.
- Subprocess invocation, argument strings, `os.makedirs`, `shutil.copy` and `sys.exit`: a stage is its kind and the integers passed to it, a copy is the `Exported` outcome, and an exit is an `Exit` value.
- `Capture.RegionAccepted`: hands the recorder the rectangle as written, taking the overlay-relative points as desktop coordinates; the screen's position (line 74 of `mononcgif/mononc.py`) is never added, so on a screen not at (0,0) another area is recorded (see Findings).
- What an exception escaping a handler does to the process (it depends on the PyQt version): it is the outcome `Raised` / `Crashed`.
- The screen enumeration `_get_screen_geometries` is one snapshot passed to `ScreenPicker.Open`; the source queries it twice (lines 131 and 149).
- The wiring between windows (`_App.run`, `_App._screen_geo_clicked`, `_create_button_clicked`, `run`) and `setup.py`: callbacks and packaging with nothing to state.

## Findings

| source | as written | input that shows it | evidently intended | confidence | as-written member | corrected member |
|---|---|---|---|---|---|---|
| mononcgif/mononc.py:368-372 | the overlay is moved (line 74) to the screen's position, but the points it reports, relative to the overlay, are passed to the recorder as `-x` / `-y` unchanged | a screen at (1920,0) and a drag from (10,10) to (110,110) on its overlay: the recorder gets the area at (10,10), on another screen | the recorded area is the one the user marked, at (1930,10) | medium, not executed | `Capture.OffsetScreenCapturesElsewhere` | `Capture.ScreenCaptureRect`, `Capture.ScreenCaptureWithinScreen` |
| mononcgif/mononc.py:100-102 | the release handler sets the current point to the release position without the check the move handler makes | press at (10,10), release at (5,5), Enter: the region (10,10)-(5,5) is accepted and the recorder gets width -5 and height -5 | the accepted corner is at or below-right of the origin, as the move handler's guard keeps it during the drag | medium, not executed | `RegionSelect.ReleaseCanInvertRegion` | `RegionSelect.GuardedStep`, `RegionSelect.GuardedAcceptsOnlyOrdered` |

The class `RegionSelect.SelectRegionWindow` keeps the release handler as
written, so that it describes the program; `GuardedStep` is the corrected
transition function, on which the ordering of every accepted region is proved.
Likewise `Capture.RegionAccepted` keeps the rectangle as written;
`Capture.ScreenCaptureRect` is the corrected area, proved to lie on the screen.
