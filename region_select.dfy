/**
 * The full-screen overlay on which the user drags the capture rectangle
 * (`_QSelectRegionWindow`). Its state is the pair of optional points
 * `_init_pos` / `_cur_pos`; mouse presses, moves and releases update it and
 * the Enter/Return and Escape keys end the selection.
 *
 * `Step` is the transition function; the class `SelectRegionWindow` performs
 * the same transitions in place and is specified by it.
 */
module RegionSelect {
  import opened Wrappers
  import opened Geometry
  import opened Errors

  datatype Key = Escape | Enter | Return | OtherKey(code: int)

  datatype Event =
    | PressAt(pos: Point)
    | MoveTo(pos: Point)
    | ReleaseAt(pos: Point)
    | KeyDown(key: Key)

  /** `_init_pos` (the drag origin) and `_cur_pos` (the current corner); None until set. */
  datatype Selection = Selection(origin: Option<Point>, current: Option<Point>)

  /** What handling one event leads to. */
  datatype Reaction =
    | Updated                                  // the selection (and its overlay) was updated
    | Ignored                                  // the event changed nothing
    | PassedOn                                 // an unrelated key, left to the default key handling
    | Accepted(origin: Point, current: Point)  // window closed, accept callback called with these points
    | Exited(exit: Exit)                       // the process ends
    | Raised                                   // the handler raised: no origin exists yet

  const Initial := Selection(None, None)

  /** The selection is complete and its current corner is at or below-right of its origin. */
  predicate Ordered(s: Selection) {
    s.origin.Some? && s.current.Some? && Dominates(s.current.value, s.origin.value)
  }

  /** Escape ends the program through `_error`. */
  function CancelExit(): Exit {
    ErrorExit("Cancelled by user")
  }

  /** The handler of one event, as written: a release takes the pointer position unchecked. */
  function Step(s: Selection, e: Event): (r: (Selection, Reaction))
    ensures e.PressAt? ==> Ordered(r.0) && r.0.origin == r.0.current == Some(e.pos)
    ensures e.MoveTo? && Ordered(s) ==> Ordered(r.0) && r.0.origin == s.origin
    ensures e.KeyDown? ==> r.0 == s
    ensures r.1.Accepted? <==> e.KeyDown? && (e.key.Enter? || e.key.Return?) && s.origin.Some? && s.current.Some?
    ensures r.1.Accepted? ==> s.origin == Some(r.1.origin) && s.current == Some(r.1.current)
    ensures r.1.Exited? <==> e == KeyDown(Escape)
  {
    match e
    case PressAt(p) => (Selection(Some(p), Some(p)), Updated)
    case ReleaseAt(p) => (Selection(s.origin, Some(p)), if s.origin.None? then Raised else Updated)
    case MoveTo(p) =>
      if s.origin.None? then (s, Raised)
      else if p.x < s.origin.value.x || p.y < s.origin.value.y then (s, Ignored)
      else (Selection(s.origin, Some(p)), Updated)
    case KeyDown(k) =>
      match k
      case Escape => (s, Exited(CancelExit()))
      case Enter | Return =>
        if s.origin.None? || s.current.None? then (s, Ignored)
        else (s, Accepted(s.origin.value, s.current.value))
      case OtherKey(_) => (s, PassedOn)
  }

  /** The selection after the events are handled in order. */
  function After(s: Selection, events: seq<Event>): Selection
    decreases |events|
  {
    if events == [] then s else After(Step(s, events[0]).0, events[1..])
  }

  /** The move events of a drag through the points `ps`. */
  function Drag(ps: seq<Point>): seq<Event>
    decreases |ps|
  {
    if ps == [] then [] else [MoveTo(ps[0])] + Drag(ps[1..])
  }

  /**
   * The corner a drag from `o` settles on: the last of `ps` at or below-right
   * of `o`, or `c` when there is none.
   */
  function LastDominating(o: Point, c: Point, ps: seq<Point>): Point
    decreases |ps|
  {
    if ps == [] then c else LastDominating(o, if Dominates(ps[0], o) then ps[0] else c, ps[1..])
  }

  /** During a drag the origin stays put and the corner follows exactly the moves that do not go above or left of it. */
  lemma {:induction false} DragFollowsDominatingMoves(o: Point, c: Point, ps: seq<Point>)
    ensures After(Selection(Some(o), Some(c)), Drag(ps)) == Selection(Some(o), Some(LastDominating(o, c, ps)))
    decreases |ps|
  {
    if ps != [] {
      var next := if Dominates(ps[0], o) then ps[0] else c;
      assert Drag(ps)[0] == MoveTo(ps[0]) && Drag(ps)[1..] == Drag(ps[1..]);
      assert Step(Selection(Some(o), Some(c)), MoveTo(ps[0])).0 == Selection(Some(o), Some(next));
      DragFollowsDominatingMoves(o, next, ps[1..]);
    }
  }

  lemma {:induction false} LastDominatingDominates(o: Point, c: Point, ps: seq<Point>)
    requires Dominates(c, o)
    ensures Dominates(LastDominating(o, c, ps), o)
    decreases |ps|
  {
    if ps != [] {
      LastDominatingDominates(o, if Dominates(ps[0], o) then ps[0] else c, ps[1..]);
    }
  }

  /**
   * A press discards any earlier selection, and after a press followed only by
   * moves the corner is at or below-right of the origin.
   */
  lemma PressThenDragIsOrdered(s: Selection, p: Point, ps: seq<Point>)
    ensures var t := After(s, [PressAt(p)] + Drag(ps));
            Ordered(t) && t.origin == Some(p) && t.current == Some(LastDominating(p, p, ps))
  {
    var events := [PressAt(p)] + Drag(ps);
    assert events[0] == PressAt(p) && events[1..] == Drag(ps);
    DragFollowsDominatingMoves(p, p, ps);
    LastDominatingDominates(p, p, ps);
  }

  /** Press at (10,10), release at (5,5), Enter: the accepted corner lies above and left of the origin. */
  lemma ReleaseCanInvertRegion()
    ensures var s := After(Initial, [PressAt(Point(10, 10)), ReleaseAt(Point(5, 5))]);
            var r := Step(s, KeyDown(Enter)).1;
            r == Accepted(Point(10, 10), Point(5, 5)) && !Dominates(r.current, r.origin)
  {
    var events := [PressAt(Point(10, 10)), ReleaseAt(Point(5, 5))];
    assert events[1..] == [ReleaseAt(Point(5, 5))] && events[1..][1..] == [];
  }

  /** The release handler with the guard the move handler has, so that end >= origin holds at confirmation. */
  function GuardedStep(s: Selection, e: Event): (r: (Selection, Reaction))
    ensures OriginBounds(s) ==> OriginBounds(r.0)
    ensures !e.ReleaseAt? ==> r == Step(s, e)
  {
    if e.ReleaseAt? then Step(s, MoveTo(e.pos)) else Step(s, e)
  }

  function GuardedAfter(s: Selection, events: seq<Event>): Selection
    decreases |events|
  {
    if events == [] then s else GuardedAfter(GuardedStep(s, events[0]).0, events[1..])
  }

  /** Once an origin is set, the corner exists and is at or below-right of it. */
  predicate OriginBounds(s: Selection) {
    s.origin.Some? ==> Ordered(s)
  }

  lemma {:induction false} GuardedKeepsOriginBounds(s: Selection, events: seq<Event>)
    requires OriginBounds(s)
    ensures OriginBounds(GuardedAfter(s, events))
    decreases |events|
  {
    if events != [] {
      GuardedKeepsOriginBounds(GuardedStep(s, events[0]).0, events[1..]);
    }
  }

  /** With the guarded release, whatever the events, every confirmed region has end >= origin on both axes. */
  lemma GuardedAcceptsOnlyOrdered(events: seq<Event>, k: Key)
    ensures var r := GuardedStep(GuardedAfter(Initial, events), KeyDown(k)).1;
            r.Accepted? ==> Dominates(r.current, r.origin)
  {
    GuardedKeepsOriginBounds(Initial, events);
  }

  /** The overlay window; a closed window receives no more input events. */
  class SelectRegionWindow {
    var origin: Option<Point>
    var current: Option<Point>
    var closed: bool

    function State(): Selection
      reads this
    {
      Selection(origin, current)
    }

    constructor ()
      ensures State() == Initial && !closed
    {
      origin := None;
      current := None;
      closed := false;
    }

    /** `mousePressEvent`: the drag starts at `p` with an empty rectangle. */
    method MousePress(p: Point) returns (r: Reaction)
      requires !closed
      modifies this
      ensures (State(), r) == Step(old(State()), PressAt(p))
      ensures !closed
    {
      origin := Some(p);
      current := Some(p);
      r := Updated;
    }

    /** `mouseReleaseEvent`: the corner becomes `p`, with no check against the origin. */
    method MouseRelease(p: Point) returns (r: Reaction)
      requires !closed
      modifies this
      ensures (State(), r) == Step(old(State()), ReleaseAt(p))
      ensures !closed
    {
      current := Some(p);
      if origin.None? {
        r := Raised;
      } else {
        r := Updated;
      }
    }

    /** `mouseMoveEvent`: a move above or left of the origin is dropped. */
    method MouseMove(p: Point) returns (r: Reaction)
      requires !closed
      modifies this
      ensures (State(), r) == Step(old(State()), MoveTo(p))
      ensures !closed
    {
      if origin.None? {
        return Raised;
      }
      if p.x < origin.value.x || p.y < origin.value.y {
        return Ignored;
      }
      current := Some(p);
      r := Updated;
    }

    /** `keyPressEvent`: Escape ends the program, Enter/Return accepts a complete selection and closes the window. */
    method KeyPress(k: Key) returns (r: Reaction)
      requires !closed
      modifies this
      ensures (State(), r) == Step(old(State()), KeyDown(k))
      ensures closed <==> r.Accepted?
    {
      match k
      case Escape =>
        r := Exited(CancelExit());
      case Enter | Return =>
        if origin.None? || current.None? {
          return Ignored;
        }
        closed := true;
        r := Accepted(origin.value, current.value);
      case OtherKey(_) =>
        r := PassedOn;
    }
  }
}
