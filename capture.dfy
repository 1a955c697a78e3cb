/**
 * What happens once a region is accepted (`_App._region_accepted` with
 * `_capture_video`): the two points become a capture rectangle, the screen
 * recorder runs on it, and either the program ends with the recorder's exit
 * code or the trim-and-export window opens on the recording.
 */
module Capture {
  import opened Geometry
  import opened Errors
  import RegionSelect

  /** The area handed to the recorder: the origin as top-left corner, the current point as the far one. */
  function CaptureRect(origin: Point, current: Point): (r: Rect)
    ensures TopLeft(r) == origin && FarCorner(r) == current
    ensures r.width >= 0 && r.height >= 0 <==> Dominates(current, origin)
  {
    Rect(origin.x, origin.y, current.x - origin.x, current.y - origin.y)
  }

  /** Every rectangle is the capture rectangle of exactly its two corners. */
  lemma CaptureRectOfCorners(r: Rect, origin: Point, current: Point)
    ensures CaptureRect(origin, current) == r <==> origin == TopLeft(r) && current == FarCorner(r)
  {
  }

  /**
   * The area on the desktop that the two points mark, when they are given
   * relative to the overlay laid over `screen`: the capture rectangle moved by
   * the screen's position.
   */
  function ScreenCaptureRect(screen: Rect, origin: Point, current: Point): (r: Rect)
    ensures TopLeft(r) == Point(screen.x + origin.x, screen.y + origin.y)
    ensures FarCorner(r) == Point(screen.x + current.x, screen.y + current.y)
    ensures screen.x == 0 && screen.y == 0 ==> r == CaptureRect(origin, current)
  {
    var c := CaptureRect(origin, current);
    Rect(screen.x + c.x, screen.y + c.y, c.width, c.height)
  }

  /** Points on the overlay, the corner at or below-right of the origin, mark an area inside the screen. */
  lemma ScreenCaptureWithinScreen(screen: Rect, origin: Point, current: Point)
    requires InWindow(screen, origin) && InWindow(screen, current) && Dominates(current, origin)
    ensures Contains(screen, ScreenCaptureRect(screen, origin, current))
  {
  }

  /**
   * The rectangle as written takes the overlay-relative points as desktop
   * coordinates: on a screen at (1920, 0), a drag from (10,10) to (110,110)
   * on its overlay hands the recorder an area that is not on that screen.
   */
  lemma OffsetScreenCapturesElsewhere()
    ensures var screen := Rect(1920, 0, 1920, 1080);
            var origin, current := Point(10, 10), Point(110, 110);
            InWindow(screen, origin) && InWindow(screen, current) && Dominates(current, origin) &&
            CaptureRect(origin, current) == Rect(10, 10, 100, 100) &&
            !Contains(screen, CaptureRect(origin, current)) &&
            ScreenCaptureRect(screen, origin, current) == Rect(1930, 10, 100, 100)
  {
  }

  datatype AcceptOutcome =
    | CaptureFailed(exit: Exit)       // the recorder returned non-zero: the program ends
    | TrimWindowOpened(capture: Rect) // the recording exists; the trim-and-export window opens

  /** `recordExitCode` is what the screen recorder returns when run on the rectangle. */
  function RegionAccepted(origin: Point, current: Point, recordExitCode: int): (o: AcceptOutcome)
    ensures o.CaptureFailed? <==> recordExitCode != 0
    ensures o.CaptureFailed? ==> o.exit == ToolFailed("recordmydesktop", recordExitCode) && o.exit.status == 1
    ensures o.TrimWindowOpened? ==> TopLeft(o.capture) == origin && FarCorner(o.capture) == current
  {
    if recordExitCode != 0 then CaptureFailed(ToolFailed("recordmydesktop", recordExitCode))
    else TrimWindowOpened(CaptureRect(origin, current))
  }

  /** A drag from (100,100) to (500,400) confirmed with Enter captures the 400 by 300 area at (100,100). */
  lemma DragScenario()
    ensures var s := RegionSelect.After(RegionSelect.Initial,
                       [RegionSelect.PressAt(Point(100, 100)), RegionSelect.MoveTo(Point(500, 400)),
                        RegionSelect.ReleaseAt(Point(500, 400))]);
            var r := RegionSelect.Step(s, RegionSelect.KeyDown(RegionSelect.Enter)).1;
            r.Accepted? && RegionAccepted(r.origin, r.current, 0) == TrimWindowOpened(Rect(100, 100, 400, 300))
  {
    var events := [RegionSelect.PressAt(Point(100, 100)), RegionSelect.MoveTo(Point(500, 400)),
                   RegionSelect.ReleaseAt(Point(500, 400))];
    assert events[1..] == [RegionSelect.MoveTo(Point(500, 400)), RegionSelect.ReleaseAt(Point(500, 400))];
    assert events[1..][1..] == [RegionSelect.ReleaseAt(Point(500, 400))];
    assert events[1..][1..][1..] == [];
  }

  /** Escape ends the program with status 1 before any region is accepted, so the recorder never runs. */
  lemma CancelNeverCaptures(s: RegionSelect.Selection)
    ensures var r := RegionSelect.Step(s, RegionSelect.KeyDown(RegionSelect.Escape)).1;
            r.Exited? && !r.Accepted? && r.exit.status == 1 && r.exit.stderr == "Error: Cancelled by user\n"
  {
  }
}
