# TerraEdit timeline: a verified model

TerraEdit's browser editor (`editor.js`) keeps a list of loaded media clips laid out end to end. It draws that list as a timeline on a canvas: the scale is zoomed to fit, there is one grid line per second, one coloured box per clip and a red playhead with a grab handle. Two pointer gestures act on it: dragging the handle scrubs the preview video's time, and dragging anywhere pans the timeline. This project models that core in Dafny and proves what it computes.

Modules, leaf first:

- `Wrappers`: `Option`. `None` stands for the `NaN` that `formatTime` accepts.
- `JsNumber`: the JavaScript number semantics the code relies on, for finite values. These are truncation, the `%` operator, and the unsigned-long conversion that assigning `canvas.width` applies.
- `TimeFormat`: `formatTime`, with `toString` and `padStart(2, '0')` written out on digit strings.
- `Timeline`: the clip record, `totalLength` as the left-to-right reduction it is, and clip start offsets.
- `Geometry`: what `resizeCanvas` and `drawTimeline` compute. That is the zoom-to-fit scale, the canvas width, grid lines, clip boxes, the playhead and its handle band, and the time readout, gathered in a `Frame` value.
- `Gestures`: each pointer listener as a pure step on the gesture state. An event is its two listeners in registration order.
- `Editor`: class `EditorState`. Its fields are the module variables (plus `canvas.width`, `timelineWrapper.scrollLeft` and `video.currentTime`). Its methods are the handlers. Each method is proved against the functions above. `drawTimeline`'s two loops are `while` loops with invariants.

Durations, pixel positions and times are exact `real`s. The claims that the canvas covers its container hold in this exact arithmetic; "## Left out" gives a case where double rounding leaves it one pixel short. `clientWidth` is a `nat`, as it is an integer in the DOM. `canvas.width` is a `nat`, and the model applies the integer conversion the DOM performs on assignment. The container width, the zoom slider's value, the pointer's `clientX` and the canvas's `rect.left` are parameters of the handlers.

Some behaviour worth knowing, as the code has it:

- There is no playback scheduler that moves from clip to clip, and no operation that maps a time to a clip. Only `clips[0]` is ever loaded into the video element (editor.js:96-97).
- Both `pointerdown` listeners always run, so a press on the handle starts a scrub and a pan together (`Gestures.PressOnHandleStartsBoth`). The two gestures are not exclusive.
- Zoom-to-fit divides by the total length with no guard against an empty timeline.
- A clip whose media reports an infinite duration (some recorded or streamed files do) makes `totalLength()` Infinity. The grid loop `for (t = 0; t < totalLength(); t += 1)` (editor.js:47) then never ends, and the page hangs. The model's durations are finite reals, so its grid loop always ends.
- The code does not clamp the pan offset.

## Model

| member | source | states |
|---|---|---|
| JsNumber.Trunc | editor.js:22 | the integer part toward zero used by `%`: for x >= 0 it is floor(x), for x < 0 it is ceil(x), in [x, x + 1) |
| JsNumber.Remainder | editor.js:22 | the `%` operator, a - d * trunc(a / d); no contract of its own, characterised by `JsNumber.RemainderBySixty` |
| JsNumber.RemainderBySixty | editor.js:22-23 | for t >= 0, `t % 60` lies in [0, 60); floor(t % 60) = floor(t) mod 60 and floor(t / 60) = floor(t) div 60 |
| JsNumber.ToUint32 | editor.js:36 | the unsigned-long conversion is below 2^32 and equals floor(x) for 0 <= x < 2^32 |
| TimeFormat.Digits | editor.js:22-23 | `toString` of a non-negative integer below 10^21 is a digit string whose decimal value is the integer, with a leading '0' only for 0 itself; it has one digit iff n < 10 and at most two iff n < 100 |
| TimeFormat.IntToString | editor.js:22-23 | `toString` of any integer: a minus sign before the digits of a negative; no contract of its own, the non-negative case is `TimeFormat.Digits` |
| TimeFormat.PadStart2 | editor.js:22-23 | `padStart(2, '0')` keeps strings of length >= 2 and otherwise left-fills with '0' to length 2, keeping the original as suffix |
| TimeFormat.PaddedField | editor.js:22-23 | a padded field of n is all digits, denotes n, is at least 2 long, and is exactly 2 long iff n < 100 |
| TimeFormat.FormatTime | editor.js:20-25 | `formatTime`; no contract of its own, characterised by `TimeFormat.FormatTimeNaN`, `TimeFormat.FormatTimeNonNegative` and `TimeFormat.FormatTimeFields` |
| TimeFormat.FormatTimeNaN | editor.js:21 | NaN formats as "00:00" |
| TimeFormat.FormatTimeExamples | editor.js:20-25 | 65 s formats as "01:05" and 0 s as "00:00" |
| TimeFormat.FormatTimeNonNegative | editor.js:22-24 | for t >= 0 the result is the padded digits of floor(t / 60), a colon, and the padded digits of floor(t % 60) |
| TimeFormat.FormatTimeFields | editor.js:20-25 | for t >= 0 the text before the colon denotes floor(t / 60); the two digits after it denote floor(t mod 60) = floor(t) mod 60, so they lie in 00..59; the length is 5 iff t < 6000 |
| Timeline.TotalLength | editor.js:27-29 | `totalLength`, the left-to-right reduction; no contract of its own, characterised by `Timeline.TotalLengthEmpty`, `Timeline.TotalLengthPush` and `Timeline.TotalLengthIsSum` |
| Timeline.StartOffset | editor.js:53-62 | the value of `currentStart` when clip i is drawn; no contract of its own, characterised by `Timeline.StartOffsetStep` and `Timeline.StartOffsetsMonotone` |
| Timeline.TotalLengthEmpty | editor.js:27-29 | the total length of no clips is 0 |
| Timeline.TotalLengthPush | editor.js:27-29 | pushing a clip adds exactly its duration to the total |
| Timeline.TotalLengthConcat | editor.js:27-29 | the total of a concatenation is the sum of the totals |
| Timeline.TotalLengthIsSum | editor.js:27-29 | the left-to-right reduction equals the sum of all durations taken head first |
| Timeline.TotalLengthNonNegative | editor.js:27-29 | with non-negative durations the total is non-negative |
| Timeline.StartOffsetStep | editor.js:55-62 | each clip starts where the previous one ends: offset(i + 1) = offset(i) + duration(i) |
| Timeline.NonNegativePush | editor.js:108-113 | after a push the durations are all non-negative exactly when they were before and the new clip's is |
| Timeline.StartOffsetsNonDecreasing | editor.js:53-63 | with non-negative durations, offset(i) <= offset(j) whenever i <= j |
| Timeline.StartOffsetsMonotone | editor.js:53-63 | with non-negative durations, offsets never decrease and never exceed the total |
| Timeline.StartOffsetPrefixStable | editor.js:53-63 | appending clips leaves the offset of every earlier clip unchanged |
| Timeline.StartOffsetsPrefixStable | editor.js:53-63 | the same, for all earlier clips at once |
| Geometry.Max | editor.js:35 | `Math.max`; no contract of its own, characterised by `Geometry.ZoomToFit` and `Gestures.Clamp` |
| Geometry.Min | editor.js:89 | `Math.min`; no contract of its own, characterised by `Gestures.Clamp` |
| Geometry.ToPixels | editor.js:48 | a time scaled by `pxPerSec`, as at editor.js:48, 55, 56 and 65; no contract of its own, characterised by `Geometry.ZoomToFit`, `Geometry.GridLineAt` and `Geometry.ClipBoxesAt` |
| Geometry.ZoomToFit | editor.js:33-35 | the scale is >= the user zoom and >= containerWidth / total, equals one of the two, and in exact arithmetic the content width total * scale is >= the container width |
| Geometry.ZoomToFitExamples | editor.js:33-35 | 4 s in 400 px: user zoom 10 is raised to 100 px/s, user zoom 250 is kept |
| Geometry.CanvasWidth | editor.js:36 | the assigned canvas width is the integer part of the content width when that is in the attribute's range, and never exceeds 2^31 - 1 |
| Geometry.CanvasCoversContainer | editor.js:33-36 | in exact arithmetic, after zoom-to-fit the integer canvas width is at least the container width (content width in range) |
| Geometry.GridCount | editor.js:47 | the grid loop's iteration count n satisfies n >= total and n - 1 < total: ceil(total) lines for total > 0, none otherwise |
| Geometry.GridLines | editor.js:47-51 | the x positions the grid loop strokes; no contract of its own, characterised by `Geometry.GridLineAt` and `Geometry.GridLineCount` |
| Geometry.GridLineAt | editor.js:47-51 | a line is drawn for whole second t exactly when t < total, at x = t * pxPerSec |
| Geometry.GridLineCount | editor.js:47 | for total > 0 the number of lines is ceil(total) |
| Geometry.GridLinesInsideContent | editor.js:47-51 | with pxPerSec > 0 every grid line lies in [0, total * pxPerSec) |
| Geometry.GridLineOnCanvasEdge | editor.js:36-51 | with 2.5 s at 1 px/s the canvas is 2 px wide and the third line is at x = 2, on the canvas edge: the integer width can cut the content short |
| Geometry.ClipBoxes | editor.js:53-63 | the boxes the `forEach` fills; no contract of its own, characterised by `Geometry.ClipBoxesAt`, `Geometry.ClipBoxesAbut` and `Geometry.ClipBoxesEndAtContentWidth` |
| Geometry.ClipBoxesPush | editor.js:54-63 | drawing one more clip appends one box at the previous total length |
| Geometry.ClipBoxesStep | editor.js:54-63 | one iteration of the clip loop: the box of clip i sits at its running start |
| Geometry.ClipBoxesLength | editor.js:54 | one box per clip |
| Geometry.ClipBoxesAt | editor.js:53-63 | box i starts at (sum of durations before i) * pxPerSec, is duration_i * pxPerSec wide, and carries clip i's name and colour |
| Geometry.ClipBoxesAbut | editor.js:55-62 | consecutive boxes abut: box i ends where box i + 1 starts |
| Geometry.ClipBoxesEndAtContentWidth | editor.js:36-62 | the last box ends at total * pxPerSec, the width assigned to the canvas |
| Geometry.ClipBoxesPrefixStable | editor.js:53-63 | at a fixed scale, appending clips leaves every earlier box unchanged |
| Geometry.PlayheadX | editor.js:64-65 | `playX = currentTime * pxPerSec`; no contract of its own, used by `Geometry.HandleBand` and `Gestures.ScrubFollowsPointer` |
| Geometry.HandleBand | editor.js:72 | the handle band is centred on the playhead and is 10 px wide |
| Geometry.Readout | editor.js:73 | the text `${formatTime(currentTime)} / ${formatTime(duration)}`; no contract of its own, characterised by `Geometry.ReadoutExample` |
| Geometry.ReadoutExample | editor.js:73 | the readout for 65 s of 130 s is "01:05 / 02:10" |
| Geometry.FrameOf | editor.js:39-74 | everything one `drawTimeline` call computes; no contract of its own, produced by `Editor.EditorState.DrawTimeline` |
| Gestures.Clamp | editor.js:89 | `Math.max(lo, Math.min(v, hi))` lies in [lo, hi] when lo <= hi, is v inside the range, lo below it and hi above it |
| Gestures.ContentX | editor.js:81 | the x the code computes, `clientX - rect.left + scrollLeft`; no contract of its own, used by `Gestures.PointerDownEffect` and `Gestures.ScrubClamped` |
| Gestures.OnHandle | editor.js:82-83 | the ±5 px hit test; no contract of its own, characterised by `Gestures.HitTestIsHandleBand` and `Gestures.PointerDownEffect` |
| Gestures.HandleDown | editor.js:79-84 | the first `pointerdown` listener; no contract of its own, characterised by `Gestures.PointerDownEffect` |
| Gestures.ViewDown | editor.js:126-130 | the second `pointerdown` listener; no contract of its own, characterised by `Gestures.PointerDownEffect` |
| Gestures.PointerDown | editor.js:79-84 | both `pointerdown` listeners in registration order (the second is editor.js:126-130); no contract of its own, characterised by `Gestures.PointerDownEffect` and `Gestures.PressOnHandleStartsBoth` |
| Gestures.HandleMove | editor.js:85-90 | the scrub listener; no contract of its own, characterised by `Gestures.ScrubClamped` |
| Gestures.ViewMove | editor.js:131-135 | the pan listener; no contract of its own, characterised by `Gestures.PanFollowsPointer` |
| Gestures.PointerMove | editor.js:85-90 | both `pointermove` listeners, scrub then pan (the pan is editor.js:131-135); no contract of its own, characterised by `Gestures.ScrubClamped`, `Gestures.PanFollowsPointer`, `Gestures.MoveKeepsGesture` and `Gestures.MoveWithoutGestureIsNoOp` |
| Gestures.HandleUp | editor.js:91 | the first `pointerup` listener; no contract of its own, characterised by `Gestures.PointerUpEffect` |
| Gestures.ViewUp | editor.js:136 | the second `pointerup` listener; no contract of its own, characterised by `Gestures.PointerUpEffect` |
| Gestures.PointerUp | editor.js:91 | both `pointerup` listeners (the second is editor.js:136); no contract of its own, characterised by `Gestures.PointerUpEffect` and `Gestures.PointerUpIdempotent` |
| Gestures.HitTestIsHandleBand | editor.js:72-83 | in the x the code computes, the press hit test accepts exactly the points of the drawn handle band; this is the drawn band on screen when `rect.left` does not move with the wrapper's scroll |
| Gestures.PointerDownEffect | editor.js:79-130 | a press sets draggingHandle iff it was set or the x the code computes is within 5 px of currentTime * pxPerSec; it always sets draggingView, dragStartX = clientX and scrollStartX = scrollLeft; scroll and cursor are unchanged |
| Gestures.PressOnHandleStartsBoth | editor.js:79-130 | a press on the handle starts a scrub and a pan together |
| Gestures.ScrubClamped | editor.js:85-90 | while scrubbing, the cursor becomes clamp(x / pxPerSec, 0, duration), with x taken at the scroll offset before this move's pan, and lies in [0, duration] |
| Gestures.ScrubFollowsPointer | editor.js:85-90 | inside the timeline, the time assigned to `video.currentTime` puts the playhead at the x the code computes, which is under the pointer when `rect.left` does not move with the wrapper's scroll |
| Gestures.ScrollCountedTwiceExample | editor.js:79-90 | when `rect.left` is the wrapper's left edge minus the scroll, with the view scrolled 100 px and the playhead at 2 s at 100 px/s, a press on the drawn playhead does not grab it and a scrub there sets 3 s |
| Gestures.PanFollowsPointer | editor.js:131-135 | while panning, scrollLeft becomes scrollStartX - (clientX - dragStartX) |
| Gestures.PanExample | editor.js:131-135 | from scroll 0, a move of -50 px scrolls to 50 |
| Gestures.MoveWithoutGestureIsNoOp | editor.js:85-135 | with neither flag set a move changes nothing |
| Gestures.MoveKeepsGesture | editor.js:85-135 | a move keeps both flags and both start positions; only the cursor (when scrubbing) and the scroll (when panning) can change |
| Gestures.PanIsPathIndependent | editor.js:131-135 | a pan depends only on the latest pointer position |
| Gestures.PressThenMovePans | editor.js:126-135 | a press at x0 followed by a move to x1 scrolls by x0 - x1 from where it was |
| Gestures.PointerUpEffect | editor.js:91-136 | release clears both flags and changes no other field |
| Gestures.PointerUpIdempotent | editor.js:91-136 | releasing twice equals releasing once |
| Gestures.MoveAfterReleaseIsNoOp | editor.js:85-136 | after a release, moves change nothing |
| Gestures.ScrubAndPanExample | editor.js:79-136 | at 100 px/s on 4 s: a press 3 px right of the playhead grabs it and starts a pan; moving to 253 scrubs to 2.53 s and scrolls to -250; release clears only the flags |
| Editor.EditorState.constructor | editor.js:12-18 | start-up state: no clips, duration 0, the zoom slider's value as scale, no gesture; the timeline invariant holds |
| Editor.EditorState.PushClip | editor.js:108-113 | the clip is appended, the total length grows by its duration, and the durations stay non-negative exactly when the new one is |
| Editor.EditorState.ResizeCanvas | editor.js:31-37 | pxPerSec becomes the zoom-to-fit scale (>= user zoom, >= containerWidth / total); canvas.width becomes the converted total * pxPerSec, which in exact arithmetic is at least the container width when in range |
| Editor.EditorState.GridLoop | editor.js:47-51 | the grid loop produces exactly the line positions of GridLines |
| Editor.EditorState.BoxLoop | editor.js:53-63 | the clip loop with its running currentStart produces exactly the boxes of ClipBoxes |
| Editor.EditorState.DrawTimeline | editor.js:39-74 | resizes as ResizeCanvas does and returns the frame: grid lines, clip boxes, playhead at currentTime * pxPerSec, handle band and readout |
| Editor.EditorState.RebuildVideo | editor.js:94-100 | on an empty list nothing changes and nothing is drawn; otherwise duration becomes the total length and the frame is drawn; the list is never changed |
| Editor.EditorState.OnMetadataLoaded | editor.js:107-115 | push then rebuild: the clip is appended, duration grows by its length, the scale and canvas width are the zoom-to-fit values for the new total, the returned frame is the one drawn for the new state, earlier clips keep their offsets, and the timeline invariant (duration = total, cursor in [0, total]) is kept |
| Editor.EditorState.OnPointerDown | editor.js:79-84 | both pointerdown listeners in order (the second is editor.js:126-130): the new gesture state is PointerDown of the old one; the timeline invariant is kept |
| Editor.EditorState.OnPointerMove | editor.js:85-90 | both pointermove listeners in order, the scrub and then the pan of editor.js:131-135: the new state is PointerMove of the old one, so the time assigned to `video.currentTime` stays in [0, total] |
| Editor.EditorState.OnPointerUp | editor.js:91 | both pointerup listeners (the second is editor.js:136): the new state is PointerUp of the old one, both flags false |

## Left out

- DOM lookups and event wiring (editor.js:2-10, 102-103, 119-123, and the listener registrations at 79, 85, 91, 126, 131 and 136): handlers are methods that take `clientX`, `rect.left`, the container width and the zoom value as parameters.
- Canvas painting (editor.js:41-46, 57-61, 66-72): the model computes the geometry each call would paint with, not the calls. The height, fixed box rows (y 20, height 40), label offset (x + 5), font and fill colours are not modelled. The clip's own colour is kept in its box.
- File ingestion (editor.js:102-117): object URLs, the temporary video element and the asynchronous, unordered `loadedmetadata` callbacks are browser I/O. The model keeps only the callback's effect, `OnMetadataLoaded`. The URL and the random colour (editor.js:112) are opaque parameters.
- Playback: `video.play`/`pause` (editor.js:119-120) and setting `video.src` (editor.js:97). Loading a source resets the video's own time, and playback advances it; the model's `currentTime` changes only through scrubbing.
- Editor.EditorState.RebuildVideo, Editor.EditorState.OnMetadataLoaded: setting `video.src` at editor.js:97 starts a new media load, which resets `video.currentTime` to 0 before `drawTimeline()` at editor.js:99 reads it. So once a clip is loaded, each later clip's arrival draws the playhead at 0 with a readout starting "00:00". The model's returned frame uses the playhead and readout of the time from before the load.
- The `requestAnimationFrame` loop and the `timeupdate` and zoom-input redraws (editor.js:122-123, 138-142): how often `drawTimeline` runs.
- Geometry.ZoomToFit, Geometry.CanvasCoversContainer, Editor.EditorState.ResizeCanvas: the content width reaches the container width only in exact arithmetic. In IEEE doubles, with a 300 px container, one 4.3 s clip and zoom 1, editor.js:33 gives 300 / 4.3 = 69.76744186046511, and editor.js:36 assigns 4.3 * 69.76744186046511 = 299.99999999999994, so `canvas.width` becomes 299, one pixel short of the container. The model, on exact reals, gives 300.
- Geometry.ZoomToFit, Editor.EditorState.ResizeCanvas, Editor.EditorState.DrawTimeline: require a positive total length. On an empty timeline the source divides by zero, and the resulting Infinity or NaN scale is outside exact reals.
- Editor.EditorState.OnPointerDown: the model keeps the zoom slider's value as the scale until the first redraw of a non-empty timeline. In the source, `loop()` (editor.js:138-142) runs `drawTimeline` before any event arrives, so on an empty timeline `pxPerSec` is Infinity (NaN for a 0 px container) and the hit test at editor.js:83 never succeeds. The model can grab the handle on an empty timeline.
- Editor.EditorState.RebuildVideo, Editor.EditorState.OnMetadataLoaded: require the total length to be positive once the list is non-empty (and a non-negative media duration), for the same reason. A NaN or infinite media duration is not modelled.
- Editor.EditorState.OnPointerMove: requires pxPerSec > 0 while the handle is held. The source would divide by a zero or non-finite scale.
- Editor.EditorState.OnPointerMove, Gestures.ScrubFollowsPointer: assigning `video.currentTime` starts a seek, and the browser clamps a seek to the length of the loaded media. Only `clips[0]` is ever loaded (editor.js:96-97). So a scrub past the end of `clips[0]` leaves the video at that end, and the next frame draws the playhead there, not under the pointer. The model keeps the time the code assigns.
- Browser-side handling of `scrollLeft` (clamping to the scrollable range, rounding): the model stores the value the code assigns. So a pan can go negative, as `Gestures.ScrubAndPanExample` shows.
- `scrollX` (editor.js:15) is declared and never used.
- The page layout is not part of this model. So `rect.left` is an independent parameter, and the model does not relate it to the wrapper's scroll offset. In the usual layout the canvas scrolls inside the wrapper (the pan writes `timelineWrapper.scrollLeft`, editor.js:134, and the scale fits `canvas.parentElement.clientWidth`, editor.js:33). Then `rect.left` already moves with the scroll, and editor.js:81 and 88 count the scroll twice. `Gestures.ScrollCountedTwiceExample` shows the effect.
