/**
 * The editor's module state and the handlers that change it, in the order the
 * source runs them: clips pushed as their metadata loads, `rebuildVideo`,
 * `resizeCanvas` and `drawTimeline`, and the pointer listeners.
 */
module Editor {
  import opened Wrappers
  import opened Timeline
  import opened Geometry
  import Gestures

  class EditorState {
    var clips: seq<Clip>
    var duration: real
    var pxPerSec: real
    /** `canvas.width`, an integer DOM attribute. */
    var canvasWidth: nat
    /** `timelineWrapper.scrollLeft`. */
    var scrollLeft: real
    /** `video.currentTime`. */
    var currentTime: real
    var draggingHandle: bool
    var draggingView: bool
    var dragStartX: real
    var scrollStartX: real

    /** The timeline invariant: `duration` is the total length, no clip is
        negative, and the cursor lies on the timeline. */
    ghost predicate Valid()
      reads this
    {
      && duration == TotalLength(clips)
      && NonNegativeDurations(clips)
      && 0.0 <= currentTime <= duration
    }

    function Pointer(): Gestures.PointerState
      reads this
    {
      Gestures.PointerState(draggingHandle, draggingView, dragStartX, scrollStartX, scrollLeft, currentTime)
    }

    /** The state at start-up: no clips, the zoom slider's value as the scale. */
    constructor (initialZoom: real, initialCanvasWidth: nat)
      ensures Valid()
      ensures clips == [] && duration == 0.0 && pxPerSec == initialZoom && canvasWidth == initialCanvasWidth
      ensures Pointer() == Gestures.PointerState(false, false, 0.0, 0.0, 0.0, 0.0)
    {
      clips := [];
      duration := 0.0;
      pxPerSec := initialZoom;
      canvasWidth := initialCanvasWidth;
      scrollLeft := 0.0;
      currentTime := 0.0;
      draggingHandle := false;
      draggingView := false;
      dragStartX := 0.0;
      scrollStartX := 0.0;
    }

    /** `clips.push({...})` for a file whose metadata has loaded. */
    method PushClip(c: Clip)
      modifies this`clips
      ensures clips == old(clips) + [c]
      ensures TotalLength(clips) == old(TotalLength(clips)) + c.duration
      ensures NonNegativeDurations(clips) <==> old(NonNegativeDurations(clips)) && c.duration >= 0.0
    {
      TotalLengthPush(clips, c);
      NonNegativePush(clips, c);
      clips := clips + [c];
    }

    /** `resizeCanvas`: zoom to fit, then size the canvas to the content. */
    method ResizeCanvas(containerWidth: nat, userZoom: real)
      requires TotalLength(clips) > 0.0
      modifies this`pxPerSec, this`canvasWidth
      ensures pxPerSec == ZoomToFit(containerWidth, TotalLength(clips), userZoom)
      ensures pxPerSec >= userZoom && pxPerSec >= containerWidth as real / TotalLength(clips)
      ensures canvasWidth == CanvasWidth(ToPixels(TotalLength(clips), pxPerSec))
      ensures ToPixels(TotalLength(clips), pxPerSec) <= MaxCanvasWidth as real ==> canvasWidth >= containerWidth
    {
      var fullLength := TotalLength(clips);
      var px := ZoomToFit(containerWidth, fullLength, userZoom);
      if ToPixels(fullLength, px) <= MaxCanvasWidth as real {
        CanvasCoversContainer(containerWidth, fullLength, userZoom);
      }
      pxPerSec := px;
      canvasWidth := CanvasWidth(ToPixels(fullLength, px));
    }

    /** The grid loop of `drawTimeline`: one line per whole second below the total. */
    method GridLoop() returns (lines: seq<real>)
      ensures lines == GridLines(TotalLength(clips), pxPerSec)
    {
      var total := TotalLength(clips);
      lines := [];
      var t: nat := 0;
      while (t as real) < total
        invariant t <= GridCount(total)
        invariant |lines| == t
        invariant forall i :: 0 <= i < t ==> lines[i] == ToPixels(i as real, pxPerSec)
        decreases GridCount(total) - t
      {
        lines := lines + [ToPixels(t as real, pxPerSec)];
        t := t + 1;
      }
      assert t == GridCount(total);
      forall i | 0 <= i < t
        ensures lines[i] == GridLines(total, pxPerSec)[i]
      {
        GridLineAt(total, pxPerSec, i);
      }
    }

    /** The `forEach` of `drawTimeline`: each clip's box at the running start. */
    method BoxLoop() returns (boxes: seq<ClipBox>)
      ensures boxes == ClipBoxes(clips, pxPerSec)
    {
      var currentStart := 0.0;
      boxes := [];
      var i := 0;
      while i < |clips|
        invariant i <= |clips|
        invariant currentStart == StartOffset(clips, i)
        invariant boxes == ClipBoxes(clips[..i], pxPerSec)
      {
        var clip := clips[i];
        ClipBoxesStep(clips, i, currentStart, pxPerSec);
        StartOffsetStep(clips, i);
        boxes := boxes + [ClipBox(ToPixels(currentStart, pxPerSec), ToPixels(clip.duration, pxPerSec), clip.name, clip.color)];
        currentStart := currentStart + clip.duration;
        i := i + 1;
      }
      assert clips[..i] == clips;
    }

    /** `drawTimeline`: resize, then compute the grid, the boxes, the playhead and the readout. */
    method DrawTimeline(containerWidth: nat, userZoom: real) returns (f: Frame)
      requires TotalLength(clips) > 0.0
      modifies this`pxPerSec, this`canvasWidth
      ensures pxPerSec == ZoomToFit(containerWidth, TotalLength(clips), userZoom)
      ensures canvasWidth == CanvasWidth(ToPixels(TotalLength(clips), pxPerSec))
      ensures f == FrameOf(clips, pxPerSec, canvasWidth, currentTime, duration)
    {
      ResizeCanvas(containerWidth, userZoom);
      var lines := GridLoop();
      var boxes := BoxLoop();
      var playX := PlayheadX(currentTime, pxPerSec);
      f := Frame(canvasWidth, lines, boxes, playX, HandleBand(currentTime, pxPerSec), Readout(currentTime, duration));
    }

    /** `rebuildVideo`: nothing on an empty list; otherwise record the total
        length as the duration and redraw. The list itself is not changed. */
    method RebuildVideo(containerWidth: nat, userZoom: real) returns (f: Option<Frame>)
      requires clips != [] ==> TotalLength(clips) > 0.0
      modifies this`duration, this`pxPerSec, this`canvasWidth
      ensures clips == [] ==>
                f == None && duration == old(duration)
                && pxPerSec == old(pxPerSec) && canvasWidth == old(canvasWidth)
      ensures clips != [] ==>
                duration == TotalLength(clips)
                && pxPerSec == ZoomToFit(containerWidth, TotalLength(clips), userZoom)
                && canvasWidth == CanvasWidth(ToPixels(TotalLength(clips), pxPerSec))
                && f == Some(FrameOf(clips, pxPerSec, canvasWidth, currentTime, duration))
    {
      if |clips| == 0 {
        return None;
      }
      duration := TotalLength(clips);
      var frame := DrawTimeline(containerWidth, userZoom);
      f := Some(frame);
    }

    /** The `loadedmetadata` callback: push the clip and rebuild. It keeps the
        timeline invariant, and the new clip is drawn after all earlier ones,
        whose offsets are unchanged. */
    method OnMetadataLoaded(name: string, url: string, mediaDuration: real, color: string,
                            containerWidth: nat, userZoom: real) returns (f: Frame)
      requires Valid()
      requires mediaDuration >= 0.0 && TotalLength(clips) + mediaDuration > 0.0
      modifies this`clips, this`duration, this`pxPerSec, this`canvasWidth
      ensures Valid()
      ensures clips == old(clips) + [Clip(name, url, mediaDuration, color)]
      ensures duration == old(duration) + mediaDuration
      ensures pxPerSec == ZoomToFit(containerWidth, TotalLength(clips), userZoom)
      ensures canvasWidth == CanvasWidth(ToPixels(TotalLength(clips), pxPerSec))
      ensures f == FrameOf(clips, pxPerSec, canvasWidth, currentTime, duration)
      ensures forall i :: 0 <= i <= |old(clips)| ==> StartOffset(clips, i) == StartOffset(old(clips), i)
    {
      ghost var before := clips;
      var c := Clip(name, url, mediaDuration, color);
      PushClip(c);
      assert NonNegativeDurations(clips) && clips != [];
      var r := RebuildVideo(containerWidth, userZoom);
      assert duration == TotalLength(clips) == old(duration) + mediaDuration;
      assert currentTime == old(currentTime);
      f := r.value;
      StartOffsetsPrefixStable(before, [c]);
    }

    /** Both `pointerdown` listeners, in registration order. */
    method OnPointerDown(clientX: real, rectLeft: real)
      requires Valid()
      modifies this`draggingHandle, this`draggingView, this`dragStartX, this`scrollStartX
      ensures Valid()
      ensures Pointer() == Gestures.PointerDown(old(Pointer()), clientX, rectLeft, pxPerSec)
    {
      var x := Gestures.ContentX(clientX, rectLeft, scrollLeft);
      if Gestures.OnHandle(x, currentTime, pxPerSec) {
        draggingHandle := true;
      }
      draggingView := true;
      dragStartX := clientX;
      scrollStartX := scrollLeft;
    }

    /** Both `pointermove` listeners: the scrub first, then the pan. A scrub keeps
        the timeline invariant. */
    method OnPointerMove(clientX: real, rectLeft: real)
      requires Valid()
      requires draggingHandle ==> pxPerSec > 0.0
      modifies this`currentTime, this`scrollLeft
      ensures Valid()
      ensures Pointer() == Gestures.PointerMove(old(Pointer()), clientX, rectLeft, pxPerSec, duration)
    {
      if draggingHandle {
        var x := Gestures.ContentX(clientX, rectLeft, scrollLeft);
        currentTime := Gestures.Clamp(x / pxPerSec, 0.0, duration);
      }
      if draggingView {
        var dx := clientX - dragStartX;
        scrollLeft := scrollStartX - dx;
      }
    }

    /** Both `pointerup` listeners. */
    method OnPointerUp()
      requires Valid()
      modifies this`draggingHandle, this`draggingView
      ensures Valid()
      ensures Pointer() == Gestures.PointerUp(old(Pointer()))
      ensures !draggingHandle && !draggingView
    {
      draggingHandle := false;
      draggingView := false;
    }
  }
}
