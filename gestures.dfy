/**
 * The pointer gestures as pure steps on the state they touch. Two listeners
 * are registered for each pointer event, the scrub listener first and the
 * drag-to-scroll listener second, and both run on every event; each step
 * below is one listener, and an event is the two in registration order.
 */
module Gestures {
  import Geometry

  /** The module variables the listeners read and write, with the scroll offset of
      the timeline wrapper and the time of the preview video. */
  datatype PointerState = PointerState(
    draggingHandle: bool,
    draggingView: bool,
    dragStartX: real,
    scrollStartX: real,
    scrollLeft: real,
    currentTime: real)

  function Abs(x: real): real {
    if x < 0.0 then -x else x
  }

  /** `Math.max(lo, Math.min(v, hi))`. */
  function Clamp(v: real, lo: real, hi: real): (r: real)
    ensures lo <= hi ==> lo <= r <= hi
    ensures lo <= v <= hi ==> r == v
    ensures v < lo ==> r == lo
    ensures lo <= hi < v ==> r == hi
  {
    Geometry.Max(lo, Geometry.Min(v, hi))
  }

  /** The x the listeners compute for a pointer: `clientX - rect.left + scrollLeft`. It is
      the pointer's x on the timeline only while `rect.left` does not move with the
      wrapper's scroll; see `ScrollCountedTwiceExample`. */
  function ContentX(clientX: real, rectLeft: real, scrollLeft: real): real {
    clientX - rectLeft + scrollLeft
  }

  /** The scrub listener's hit test: within 5 px of the playhead, ends included. */
  predicate OnHandle(x: real, currentTime: real, px: real) {
    var handleX := Geometry.PlayheadX(currentTime, px);
    x >= handleX - Geometry.HandleHalfWidth && x <= handleX + Geometry.HandleHalfWidth
  }

  /** First `pointerdown` listener: grab the handle when the press hits it, otherwise leave the flag. */
  function HandleDown(s: PointerState, clientX: real, rectLeft: real, px: real): PointerState {
    if OnHandle(ContentX(clientX, rectLeft, s.scrollLeft), s.currentTime, px)
    then s.(draggingHandle := true)
    else s
  }

  /** Second `pointerdown` listener: always start panning from here. */
  function ViewDown(s: PointerState, clientX: real): PointerState {
    s.(draggingView := true, dragStartX := clientX, scrollStartX := s.scrollLeft)
  }

  function PointerDown(s: PointerState, clientX: real, rectLeft: real, px: real): PointerState {
    ViewDown(HandleDown(s, clientX, rectLeft, px), clientX)
  }

  /** First `pointermove` listener: while the handle is held, the cursor follows the
      pointer, clamped to `[0, duration]`. */
  function HandleMove(s: PointerState, clientX: real, rectLeft: real, px: real, duration: real): PointerState
    requires s.draggingHandle ==> px > 0.0
  {
    if !s.draggingHandle then s
    else
      var x := ContentX(clientX, rectLeft, s.scrollLeft);
      s.(currentTime := Clamp(x / px, 0.0, duration))
  }

  /** Second `pointermove` listener: while panning, scroll by the opposite of the pointer's travel. */
  function ViewMove(s: PointerState, clientX: real): PointerState {
    if !s.draggingView then s
    else s.(scrollLeft := s.scrollStartX - (clientX - s.dragStartX))
  }

  function PointerMove(s: PointerState, clientX: real, rectLeft: real, px: real, duration: real): PointerState
    requires s.draggingHandle ==> px > 0.0
  {
    ViewMove(HandleMove(s, clientX, rectLeft, px, duration), clientX)
  }

  /** The two `pointerup` listeners. */
  function HandleUp(s: PointerState): PointerState {
    s.(draggingHandle := false)
  }

  function ViewUp(s: PointerState): PointerState {
    s.(draggingView := false)
  }

  function PointerUp(s: PointerState): PointerState {
    ViewUp(HandleUp(s))
  }

  /** In the x the listeners compute, the hit test is exactly the drawn handle band. */
  lemma HitTestIsHandleBand(x: real, currentTime: real, px: real)
    ensures var b := Geometry.HandleBand(currentTime, px);
      OnHandle(x, currentTime, px) <==> b.x <= x <= b.x + b.width
  {
  }

  /** A press grabs the handle exactly when it lands within 5 px of the playhead,
      and otherwise keeps the flag it had; it always starts a pan from the
      current pointer and scroll position, and moves neither scroll nor cursor. */
  lemma PointerDownEffect(s: PointerState, clientX: real, rectLeft: real, px: real)
    ensures var r := PointerDown(s, clientX, rectLeft, px);
      var x := ContentX(clientX, rectLeft, s.scrollLeft);
      && r.draggingHandle == (s.draggingHandle || Abs(x - s.currentTime * px) <= 5.0)
      && r.draggingView
      && r.dragStartX == clientX && r.scrollStartX == s.scrollLeft
      && r.scrollLeft == s.scrollLeft && r.currentTime == s.currentTime
  {
  }

  /** Both listeners fire, so a press on the handle starts a scrub and a pan together. */
  lemma PressOnHandleStartsBoth(s: PointerState, clientX: real, rectLeft: real, px: real)
    requires OnHandle(ContentX(clientX, rectLeft, s.scrollLeft), s.currentTime, px)
    ensures PointerDown(s, clientX, rectLeft, px).draggingHandle
    ensures PointerDown(s, clientX, rectLeft, px).draggingView
  {
  }

  /** While scrubbing, the cursor becomes the time of the x the listener computes,
      clamped to `[0, duration]`, with the scroll offset from before this move. */
  lemma ScrubClamped(s: PointerState, clientX: real, rectLeft: real, px: real, duration: real)
    requires s.draggingHandle && px > 0.0 && duration >= 0.0
    ensures var r := PointerMove(s, clientX, rectLeft, px, duration);
      && r.currentTime == Clamp(ContentX(clientX, rectLeft, s.scrollLeft) / px, 0.0, duration)
      && 0.0 <= r.currentTime <= duration
  {
  }

  /** Dividing a pixel position in `[0, d * px]` by the scale gives a time in `[0, d]`. */
  lemma QuotientInRange(x: real, px: real, d: real)
    requires px > 0.0 && 0.0 <= x <= d * px
    ensures 0.0 <= x / px <= d
    ensures (x / px) * px == x
  {
    var inv := 1.0 / px;
    assert inv > 0.0;
    assert x / px == x * inv;
    assert x * inv >= 0.0;
    assert px * inv == 1.0;
    assert (d * px) * inv == d * (px * inv);
    assert (d * px - x) * inv >= 0.0;
  }

  /** Inside the timeline, scrubbing assigns the time whose playhead x is the x the
      listener computed: under the pointer while `rect.left` does not move with the scroll. */
  lemma ScrubFollowsPointer(s: PointerState, clientX: real, rectLeft: real, px: real, duration: real)
    requires s.draggingHandle && px > 0.0
    requires 0.0 <= ContentX(clientX, rectLeft, s.scrollLeft) <= duration * px
    ensures Geometry.PlayheadX(PointerMove(s, clientX, rectLeft, px, duration).currentTime, px)
         == ContentX(clientX, rectLeft, s.scrollLeft)
  {
    var x := ContentX(clientX, rectLeft, s.scrollLeft);
    QuotientInRange(x, px, duration);
    var q := x / px;
    assert Clamp(q, 0.0, duration) == q;
  }

  /** While panning, the scroll offset is the start offset minus the pointer's travel. */
  lemma PanFollowsPointer(s: PointerState, clientX: real, rectLeft: real, px: real, duration: real)
    requires s.draggingHandle ==> px > 0.0
    requires s.draggingView
    ensures PointerMove(s, clientX, rectLeft, px, duration).scrollLeft
         == s.scrollStartX - (clientX - s.dragStartX)
  {
  }

  /** From scroll 0, moving the pointer 50 px to the left scrolls to 50. */
  lemma PanExample(s: PointerState, rectLeft: real, px: real, duration: real)
    requires s.draggingHandle ==> px > 0.0
    requires s.draggingView && s.scrollStartX == 0.0
    ensures PointerMove(s, s.dragStartX - 50.0, rectLeft, px, duration).scrollLeft == 50.0
  {
  }

  /** With no gesture in progress a move changes nothing. */
  lemma MoveWithoutGestureIsNoOp(s: PointerState, clientX: real, rectLeft: real, px: real, duration: real)
    requires !s.draggingHandle && !s.draggingView
    ensures PointerMove(s, clientX, rectLeft, px, duration) == s
  {
  }

  /** A move never changes which gestures are active or where a pan started,
      and only the cursor and the scroll offset can change. */
  lemma MoveKeepsGesture(s: PointerState, clientX: real, rectLeft: real, px: real, duration: real)
    requires s.draggingHandle ==> px > 0.0
    ensures var r := PointerMove(s, clientX, rectLeft, px, duration);
      && r.draggingHandle == s.draggingHandle && r.draggingView == s.draggingView
      && r.dragStartX == s.dragStartX && r.scrollStartX == s.scrollStartX
      && (!s.draggingHandle ==> r.currentTime == s.currentTime)
      && (!s.draggingView ==> r.scrollLeft == s.scrollLeft)
  {
  }

  /** A pan depends only on where the pointer is now, not on the path it took. */
  lemma PanIsPathIndependent(s: PointerState, x1: real, x2: real, rectLeft: real, px: real, duration: real)
    requires s.draggingHandle ==> px > 0.0
    requires s.draggingView
    ensures PointerMove(PointerMove(s, x1, rectLeft, px, duration), x2, rectLeft, px, duration).scrollLeft
         == PointerMove(s, x2, rectLeft, px, duration).scrollLeft
  {
  }

  /** A press followed by a move pans by the pointer's travel since the press. */
  lemma PressThenMovePans(s: PointerState, x0: real, x1: real, rectLeft: real, px: real, duration: real)
    requires px > 0.0
    ensures PointerMove(PointerDown(s, x0, rectLeft, px), x1, rectLeft, px, duration).scrollLeft
         == s.scrollLeft - (x1 - x0)
  {
  }

  /** Release ends both gestures and touches nothing else. */
  lemma PointerUpEffect(s: PointerState)
    ensures var r := PointerUp(s);
      && !r.draggingHandle && !r.draggingView
      && r.dragStartX == s.dragStartX && r.scrollStartX == s.scrollStartX
      && r.scrollLeft == s.scrollLeft && r.currentTime == s.currentTime
  {
  }

  lemma PointerUpIdempotent(s: PointerState)
    ensures PointerUp(PointerUp(s)) == PointerUp(s)
  {
  }

  /** After a release, moves change nothing until the next press. */
  lemma MoveAfterReleaseIsNoOp(s: PointerState, clientX: real, rectLeft: real, px: real, duration: real)
    ensures PointerMove(PointerUp(s), clientX, rectLeft, px, duration) == PointerUp(s)
  {
  }

  /** When the canvas scrolls inside the wrapper, `rect.left` is the wrapper's left edge
      minus `scrollLeft`, and the listeners add the scroll a second time. With the
      wrapper at 0, the view scrolled by 100 px and the playhead at 2 s at 100 px per
      second (drawn at canvas x 200, client x 100), a press on the drawn playhead does
      not grab it, and a scrub with the pointer there sets 3 s, drawn at canvas x 300. */
  lemma ScrollCountedTwiceExample(s: PointerState, wrapperLeft: real, clientX: real)
    requires wrapperLeft == 0.0 && s.scrollLeft == 100.0 && s.currentTime == 2.0
    requires clientX - (wrapperLeft - s.scrollLeft) == Geometry.PlayheadX(s.currentTime, 100.0)
    ensures !PointerDown(s.(draggingHandle := false), clientX, wrapperLeft - s.scrollLeft, 100.0).draggingHandle
    ensures s.draggingHandle ==>
      PointerMove(s, clientX, wrapperLeft - s.scrollLeft, 100.0, 4.0).currentTime == 3.0
  {
    assert ContentX(clientX, wrapperLeft - s.scrollLeft, s.scrollLeft) == 300.0;
  }

  /** At 100 px per second on a 4-second timeline, with the playhead at 0: a press
      3 px right of it grabs the handle and starts a pan; moving 250 px to the
      right scrubs to 2.53 s and, since the pan is not clamped, scrolls to -250. */
  lemma ScrubAndPanExample()
    ensures var s0 := PointerState(false, false, 0.0, 0.0, 0.0, 0.0);
      var s1 := PointerDown(s0, 3.0, 0.0, 100.0);
      var s2 := PointerMove(s1, 253.0, 0.0, 100.0, 4.0);
      && s1.draggingHandle && s1.draggingView
      && s2.currentTime == 2.53 && s2.scrollLeft == -250.0
      && PointerUp(s2) == PointerState(false, false, 3.0, 0.0, -250.0, 2.53)
  {
  }
}
