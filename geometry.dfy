/**
 * What `resizeCanvas` and `drawTimeline` compute: the zoom-to-fit scale, the
 * canvas width, one grid line per whole second, one box per clip at its
 * running offset, the playhead and its handle band, and the time readout.
 * Only the geometry is modelled; the canvas calls that paint it are not.
 */
module Geometry {
  import opened Wrappers
  import opened Timeline
  import JsNumber
  import TimeFormat

  /** A time on the timeline, in pixels at `px` pixels per second. */
  function ToPixels(t: real, px: real): real {
    t * px
  }

  /** Scaling distributes over a sum of durations. */
  lemma ToPixelsAdd(a: real, b: real, px: real)
    ensures ToPixels(a, px) + ToPixels(b, px) == ToPixels(a + b, px)
  {
  }

  function Max(a: real, b: real): real {
    if a >= b then a else b
  }

  function Min(a: real, b: real): real {
    if a <= b then a else b
  }

  /** `Math.max(containerWidth / fullLength, userZoom)`: the user's zoom, but never
      less than the scale at which the whole timeline fills the container. */
  function ZoomToFit(containerWidth: nat, total: real, userZoom: real): (px: real)
    requires total > 0.0
    ensures px >= containerWidth as real / total && px >= userZoom
    ensures px == containerWidth as real / total || px == userZoom
    ensures ToPixels(total, px) >= containerWidth as real
  {
    var minPxPerSec := containerWidth as real / total;
    var px := Max(minPxPerSec, userZoom);
    assert total * minPxPerSec == containerWidth as real;
    assert total * px >= total * minPxPerSec;
    px
  }

  /** Four seconds in a 400 px container: a zoom of 10 is raised to the fit
      scale of 100 px per second, a zoom of 250 is kept. */
  lemma ZoomToFitExamples()
    ensures ZoomToFit(400, 4.0, 10.0) == 100.0
    ensures ZoomToFit(400, 4.0, 250.0) == 250.0
  {
    assert 400 as real / 4.0 == 100.0;
  }

  /** The largest value the `width` attribute of a canvas keeps. */
  const MaxCanvasWidth: int := 0x7fff_ffff
  /** The `width` a canvas falls back to for a value out of range. */
  const DefaultCanvasWidth: nat := 300

  /** Assigning `w` to `canvas.width`: the unsigned-long conversion, then the
      attribute's range check, which resets values above 2^31 - 1 to the default. */
  function CanvasWidth(w: real): (n: nat)
    ensures 0.0 <= w < MaxCanvasWidth as real + 1.0 ==> n as real <= w < n as real + 1.0
    ensures n <= MaxCanvasWidth
  {
    var n := JsNumber.ToUint32(w);
    if n <= MaxCanvasWidth then n else DefaultCanvasWidth
  }

  /** Zoom-to-fit fills the container: the canvas is at least as wide as it,
      as long as the content width stays in the attribute's range. */
  lemma CanvasCoversContainer(containerWidth: nat, total: real, userZoom: real)
    requires total > 0.0
    requires ToPixels(total, ZoomToFit(containerWidth, total, userZoom)) <= MaxCanvasWidth as real
    ensures CanvasWidth(ToPixels(total, ZoomToFit(containerWidth, total, userZoom))) >= containerWidth
  {
  }

  /** The number of whole seconds `t` with `0 <= t < total`: the iterations of
      `for (let t = 0; t < totalLength(); t += 1)`. */
  function GridCount(total: real): (n: nat)
    ensures n as real >= total
    ensures n == 0 || (n - 1) as real < total
  {
    if total <= 0.0 then 0 else -((-total).Floor)
  }

  /** The x positions of the grid lines. */
  function GridLines(total: real, px: real): seq<real> {
    seq(GridCount(total), i => ToPixels(i as real, px))
  }

  /** A line is drawn for the whole second `t` exactly when `t < total`, at `t * px`. */
  lemma GridLineAt(total: real, px: real, t: nat)
    ensures t < |GridLines(total, px)| <==> (t as real) < total
    ensures t < |GridLines(total, px)| ==> GridLines(total, px)[t] == ToPixels(t as real, px)
  {
  }

  /** `ceil(total)` lines for a positive total. */
  lemma GridLineCount(total: real, px: real)
    requires total > 0.0
    ensures |GridLines(total, px)| as real - 1.0 < total <= |GridLines(total, px)| as real
  {
  }

  /** Every grid line lies inside the content, which spans `[0, total * px)`. */
  lemma GridLinesInsideContent(total: real, px: real, i: nat)
    requires px > 0.0
    requires i < |GridLines(total, px)|
    ensures 0.0 <= GridLines(total, px)[i] < ToPixels(total, px)
  {
    GridLineAt(total, px, i);
    assert (i as real) * px < total * px;
  }

  /** The integer canvas width can cut the content short: with 2.5 seconds at
      1 px per second the canvas is 2 px wide and the last line is at x = 2. */
  lemma GridLineOnCanvasEdge()
    ensures CanvasWidth(ToPixels(2.5, 1.0)) == 2
    ensures |GridLines(2.5, 1.0)| == 3 && GridLines(2.5, 1.0)[2] == 2.0
  {
    assert (2.5).Floor == 2;
    assert (-2.5).Floor == -3;
  }

  /** A clip's box on the timeline: `fillRect(x, 20, w, 40)` with its colour and label. */
  datatype ClipBox = ClipBox(x: real, width: real, name: string, color: string)

  /** The boxes the `forEach` over the clips draws, built as the loop builds them. */
  function ClipBoxes(clips: seq<Clip>, px: real): seq<ClipBox> {
    if clips == [] then []
    else
      var prefix := clips[..|clips| - 1];
      var c := clips[|clips| - 1];
      ClipBoxes(prefix, px) + [ClipBox(ToPixels(TotalLength(prefix), px), ToPixels(c.duration, px), c.name, c.color)]
  }

  /** Drawing one more clip adds one box, placed where the earlier ones end. */
  lemma ClipBoxesPush(clips: seq<Clip>, c: Clip, px: real)
    ensures ClipBoxes(clips + [c], px)
         == ClipBoxes(clips, px) + [ClipBox(ToPixels(TotalLength(clips), px), ToPixels(c.duration, px), c.name, c.color)]
  {
    assert (clips + [c])[..|clips|] == clips;
  }

  /** The step the drawing loop takes: with `start` the offset of clip `i`, the
      boxes of the first `i + 1` clips end with clip `i`'s box at `start * px`. */
  lemma ClipBoxesStep(clips: seq<Clip>, i: nat, start: real, px: real)
    requires i < |clips| && start == StartOffset(clips, i)
    ensures ClipBoxes(clips[..i + 1], px)
         == ClipBoxes(clips[..i], px) + [ClipBox(ToPixels(start, px), ToPixels(clips[i].duration, px), clips[i].name, clips[i].color)]
  {
    assert clips[..i + 1] == clips[..i] + [clips[i]];
    ClipBoxesPush(clips[..i], clips[i], px);
  }

  /** Box `i` starts at the clip's offset scaled by `px`, is its duration scaled by
      `px` wide, and carries that clip's name and colour. */
  lemma {:induction false} ClipBoxesAt(clips: seq<Clip>, px: real, i: nat)
    requires i < |clips|
    ensures |ClipBoxes(clips, px)| == |clips|
    ensures ClipBoxes(clips, px)[i]
         == ClipBox(ToPixels(StartOffset(clips, i), px), ToPixels(clips[i].duration, px), clips[i].name, clips[i].color)
    decreases |clips|
  {
    var prefix := clips[..|clips| - 1];
    if i < |clips| - 1 {
      ClipBoxesAt(prefix, px, i);
      assert prefix[..i] == clips[..i];
    } else {
      ClipBoxesLength(prefix, px);
    }
  }

  lemma {:induction false} ClipBoxesLength(clips: seq<Clip>, px: real)
    ensures |ClipBoxes(clips, px)| == |clips|
    decreases |clips|
  {
    if clips != [] {
      ClipBoxesLength(clips[..|clips| - 1], px);
    }
  }

  /** Consecutive boxes abut: each ends where the next begins. */
  lemma ClipBoxesAbut(clips: seq<Clip>, px: real, i: nat)
    requires i + 1 < |clips|
    ensures |ClipBoxes(clips, px)| == |clips|
    ensures ClipBoxes(clips, px)[i].x + ClipBoxes(clips, px)[i].width == ClipBoxes(clips, px)[i + 1].x
  {
    ClipBoxesAt(clips, px, i);
    ClipBoxesAt(clips, px, i + 1);
    StartOffsetStep(clips, i);
  }

  /** The last box ends at the content width `total * px`. */
  lemma ClipBoxesEndAtContentWidth(clips: seq<Clip>, px: real)
    requires clips != []
    ensures |ClipBoxes(clips, px)| == |clips|
    ensures var last := ClipBoxes(clips, px)[|clips| - 1];
      last.x + last.width == ToPixels(TotalLength(clips), px)
  {
    var prefix := clips[..|clips| - 1];
    ClipBoxesLength(prefix, px);
    ToPixelsAdd(TotalLength(prefix), clips[|clips| - 1].duration, px);
  }

  /** Appending clips leaves every earlier box as it was. */
  lemma {:induction false} ClipBoxesPrefixStable(clips: seq<Clip>, more: seq<Clip>, px: real)
    ensures |ClipBoxes(clips + more, px)| == |clips| + |more|
    ensures ClipBoxes(clips + more, px)[..|clips|] == ClipBoxes(clips, px)
  {
    ClipBoxesLength(clips, px);
    ClipBoxesLength(clips + more, px);
    forall i | 0 <= i < |clips|
      ensures ClipBoxes(clips + more, px)[i] == ClipBoxes(clips, px)[i]
    {
      ClipBoxesAt(clips + more, px, i);
      ClipBoxesAt(clips, px, i);
      StartOffsetPrefixStable(clips, more, i);
      assert (clips + more)[i] == clips[i];
    }
  }

  /** Half the width of the playhead handle, and of the band a press must hit. */
  const HandleHalfWidth: real := 5.0

  /** `currentTime * pxPerSec`. */
  function PlayheadX(currentTime: real, px: real): real {
    ToPixels(currentTime, px)
  }

  /** The handle band `fillRect(playX - 5, 0, 10, H)`. */
  datatype Band = Band(x: real, width: real)

  function HandleBand(currentTime: real, px: real): (b: Band)
    ensures b.x + b.width / 2.0 == PlayheadX(currentTime, px)
    ensures b.width == 2.0 * HandleHalfWidth
  {
    Band(PlayheadX(currentTime, px) - HandleHalfWidth, 2.0 * HandleHalfWidth)
  }

  /** `${formatTime(currentTime)} / ${formatTime(duration)}`. */
  function Readout(currentTime: real, duration: real): string {
    TimeFormat.FormatTime(Some(currentTime)) + " / " + TimeFormat.FormatTime(Some(duration))
  }

  /** Everything one `drawTimeline` call computes. */
  datatype Frame = Frame(
    width: nat,
    gridLines: seq<real>,
    boxes: seq<ClipBox>,
    playheadX: real,
    handle: Band,
    readout: string)

  function FrameOf(clips: seq<Clip>, px: real, width: nat, currentTime: real, duration: real): Frame {
    Frame(width, GridLines(TotalLength(clips), px), ClipBoxes(clips, px),
          PlayheadX(currentTime, px), HandleBand(currentTime, px), Readout(currentTime, duration))
  }

  /** The two formatted times of the readout example, before they are joined. */
  lemma ReadoutOfExampleTimes(currentTime: real, duration: real)
    requires currentTime == 65.0 && duration == 130.0
    ensures Readout(currentTime, duration) == "01:05" + " / " + "02:10"
  {
    TimeFormat.FormatTimeExamples();
  }

  /** The readout shows the cursor and the duration as zero-padded minutes:seconds. */
  lemma ReadoutExample()
    ensures Readout(65.0, 130.0) == "01:05 / 02:10"
  {
    assert "01:05" + " / " + "02:10" == "01:05 / 02:10";
    ReadoutOfExampleTimes(65.0, 130.0);
  }
}
