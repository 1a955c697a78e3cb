/**
 * The trim range of the create-GIF window (`_QCreateGifWindow`): two
 * millisecond fields `_start` and `_end`, set from the media duration once it
 * is known and then moved by two sliders, each of which drags the other
 * endpoint along when it would be crossed. The sliders' forced updates have
 * their notifications blocked, so a handler never re-enters the other one.
 */
module Trimming {
  import opened Wrappers

  /** `_start` / `_end` in milliseconds; None while the attribute does not exist yet. */
  datatype Span = Span(start: Option<int>, end: Option<int>)

  datatype Reaction =
    | Updated  // the range (and its label) was updated
    | Raised   // the handler raised: the other endpoint does not exist yet

  const Unset := Span(None, None)

  predicate Ordered(t: Span) {
    t.start.Some? && t.end.Some? && t.start.value <= t.end.value
  }

  /** Both endpoints exist and `lo <= start <= end <= hi`. */
  predicate Within(t: Span, lo: int, hi: int) {
    Ordered(t) && lo <= t.start.value && t.end.value <= hi
  }

  function Max(a: int, b: int): int { if a < b then b else a }

  function Min(a: int, b: int): int { if a < b then a else b }

  /** `_duration_changed`: the range covers the whole recording, `duration` milliseconds from 0. */
  function Initialised(duration: int): (t: Span)
    ensures t.start == Some(0) && t.end.Some?
    ensures t.end.value - t.start.value + 1 == duration
    ensures Ordered(t) <==> duration >= 1
  {
    Span(Some(0), Some(duration - 1))
  }

  /** `_slider_start_value_changed`: the start becomes `v`; the end follows only when `v` passes it. */
  function StartMoved(t: Span, v: int): (r: (Span, Reaction))
    ensures r.0.start == Some(v)
    ensures r.1 == Raised <==> t.end.None?
    ensures t.end.Some? ==> Ordered(r.0) && r.0.end == Some(Max(t.end.value, v))
    ensures r.0.end != t.end ==> t.end.Some? && v > t.end.value
  {
    if t.end.None? then (Span(Some(v), t.end), Raised)
    else if v > t.end.value then (Span(Some(v), Some(v)), Updated)
    else (Span(Some(v), t.end), Updated)
  }

  /** `_slider_end_value_changed`: the end becomes `v`; the start follows only when `v` passes it. */
  function EndMoved(t: Span, v: int): (r: (Span, Reaction))
    ensures r.0.end == Some(v)
    ensures r.1 == Raised <==> t.start.None?
    ensures t.start.Some? ==> Ordered(r.0) && r.0.start == Some(Min(t.start.value, v))
    ensures r.0.start != t.start ==> t.start.Some? && v < t.start.value
  {
    if t.start.None? then (Span(t.start, Some(v)), Raised)
    else if v < t.start.value then (Span(Some(v), Some(v)), Updated)
    else (Span(t.start, Some(v)), Updated)
  }

  /**
   * `setValue` on the end slider at initialisation notifies the end handler
   * with the value the end already holds: for a non-empty recording this changes nothing.
   */
  lemma InitialNotificationIsNoOp(duration: int)
    requires duration >= 1
    ensures EndMoved(Initialised(duration), duration - 1) == (Initialised(duration), Updated)
  {
  }

  datatype Slide = StartTo(value: int) | EndTo(value: int)

  function Slid(t: Span, s: Slide): Span {
    match s
    case StartTo(v) => StartMoved(t, v).0
    case EndTo(v) => EndMoved(t, v).0
  }

  /** The range after the slider moves are handled in order. */
  function Replay(t: Span, slides: seq<Slide>): Span
    decreases |slides|
  {
    if slides == [] then t else Replay(Slid(t, slides[0]), slides[1..])
  }

  /** Slider moves within `[lo, hi]` keep the range ordered and within `[lo, hi]`. */
  lemma {:induction false} SlidesStayWithin(t: Span, slides: seq<Slide>, lo: int, hi: int)
    requires Within(t, lo, hi)
    requires forall i :: 0 <= i < |slides| ==> lo <= slides[i].value <= hi
    ensures Within(Replay(t, slides), lo, hi)
    decreases |slides|
  {
    if slides != [] {
      SlidesStayWithin(Slid(t, slides[0]), slides[1..], lo, hi);
    }
  }

  /**
   * Both sliders range over `[0, duration - 1]`: after initialisation, any
   * sequence of slider moves keeps `0 <= start <= end <= duration - 1`.
   */
  lemma InitialisedThenSlides(duration: int, slides: seq<Slide>)
    requires duration >= 1
    requires forall i :: 0 <= i < |slides| ==> 0 <= slides[i].value < duration
    ensures Within(Replay(Initialised(duration), slides), 0, duration - 1)
  {
    SlidesStayWithin(Initialised(duration), slides, 0, duration - 1);
  }

  /** The range state of the create-GIF window. */
  class TrimWindow {
    var start: Option<int>
    var end: Option<int>
    var durationConnected: bool  // the duration notification is connected until it has fired once

    function Current(): Span
      reads this
    {
      Span(start, end)
    }

    constructor ()
      ensures Current() == Unset && durationConnected
    {
      start := None;
      end := None;
      durationConnected := true;
    }

    /** `_duration_changed`: sets the range and disconnects itself. */
    method DurationChanged(duration: int)
      requires durationConnected
      modifies this
      ensures Current() == Initialised(duration) && !durationConnected
    {
      var last := duration - 1;
      start := Some(0);
      end := Some(last);
      durationConnected := false;
    }

    method SliderStartValueChanged(v: int) returns (r: Reaction)
      modifies this
      ensures (Current(), r) == StartMoved(old(Current()), v)
      ensures durationConnected == old(durationConnected)
    {
      start := Some(v);
      if end.None? {
        return Raised;
      }
      if v > end.value {
        end := Some(v);
      }
      r := Updated;
    }

    method SliderEndValueChanged(v: int) returns (r: Reaction)
      modifies this
      ensures (Current(), r) == EndMoved(old(Current()), v)
      ensures durationConnected == old(durationConnected)
    {
      end := Some(v);
      if start.None? {
        return Raised;
      }
      if v < start.value {
        start := Some(v);
      }
      r := Updated;
    }
  }
}
