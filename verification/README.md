# Photobooth state logic in Dafny

A model of the state logic in a browser photobooth. Three pages each keep a small amount of
mutable state that their event handlers change. The model turns each handler into a pure
transition function over immutable records and proves what the handlers promise.

- **Decoration page** (`Javascripts/final.js`). Modules `StickerList`, `FinalPage`,
  `FinalSession` and `RotatedHit`.
  - The board is an ordered list of stickers in paint order plus one optional selected sticker.
  - Handlers cover adding a sticker, selecting with bring-to-front, dragging, the two-finger
    resize/rotate gesture, double-tap delete, the keyboard shortcuts and reset.
  - The page compares sticker objects by identity; each sticker here carries a unique `id`.
  - The pointer-down handlers take the hit test as a parameter `hit: (Point, Sticker) -> bool`.
    `RotatedHit.InSticker` is the page's rotated-rectangle test, with the cosine and sine
    supplied as inputs.
- **Upload page** (`Javascripts/upload.js`). Modules `UploadPage`, `UploadSession` and
  `UploadPinchAsWritten`.
  - Pan and zoom of an uploaded photo inside the active half of the strip.
  - The zoom is clamped to [0.1, 5] and always zooms toward an anchor.
  - A stage counter runs 0 → 1 → 2 as photos are confirmed.
- **Camera page** (`Javascripts/camera.js`). Modules `CameraPage` and `CameraSession`.
  - The centred aspect-ratio crop of a video frame onto a half of the strip, with optional
    software zoom about the crop's centre.
  - The hardware/software zoom controls, the front/back toggle and the capture stage counter.
  - The take-photo button's `disabled` flag. A click disables the button. Only the first
    successful capture enables it again. A capture that finds no video frame leaves it
    disabled, and then no further photo can be taken.

Shared pieces: `Wrappers.Option` and `Geometry` (`Point`, `Rect`, `Min`, `Max`, `Clamp`, and
the canvas constants 1176 × 1470 with halves of height 735).

Inputs that the pages read from the platform become parameters of the transitions:
- the clock reading for double taps;
- the answer to the delete prompt;
- finger distances and angles, which the page computes with `sqrt` and `atan2`;
- a loaded image's natural size;
- the video's frame size;
- whether the device accepted a zoom constraint.

Every asynchronous completion (image load, countdown, stream arrival) is one atomic step.
Numbers are `real`.

A double tap deletes the topmost sticker under the second tap. `pointerDown` does not check
that the first tap hit the same sticker, and it clears the selection whether or not the
deleted sticker was selected.

The model follows the code with one exception. The upload page's two-finger zoom is the
corrected frame described under "## Findings": it zooms only once a finger distance has been
recorded. Every upload-page statement that relies on the scale staying in [0.1, 5] holds for
this corrected page. The code as written can set the scale to 5 or to NaN.

## Model

| member | source | states |
|---|---|---|
| StickerList.TopHit | Javascripts/final.js:199-201 | the search from the last index down returns the highest index whose sticker is hit, and none exactly when no sticker is hit |
| StickerList.IndexOf | Javascripts/final.js:463-464 | `indexOf` returns the first index holding the id, and none exactly when the id is not on the board |
| StickerList.RemoveAt | Javascripts/final.js:175 | `splice(i, 1)` leaves one sticker fewer: those before `i` stay in place and those after move down by one |
| StickerList.BringToFront | Javascripts/final.js:206-207 | `splice(i, 1)` then `push(s)`: the list keeps its length, `s` is last, and the rest is the list with the `i`th sticker removed |
| StickerList.RemoveAtMembers | Javascripts/final.js:463-466 | `splice(i, 1)` removes exactly that sticker's id, keeps every other id, and keeps ids distinct |
| StickerList.BringToFrontPermutes | Javascripts/final.js:206-207 | `splice` then `push` of the same sticker permutes the ids (same multiset) |
| StickerList.BringToFrontDistinct | Javascripts/final.js:227-228 | bring-to-front keeps the ids distinct and below the id counter, and `indexOf` then finds the sticker at the top |
| StickerList.BringToFrontMembers | Javascripts/final.js:227-228 | bring-to-front keeps exactly the same members |
| RotatedHit.CentreIsHit | Javascripts/final.js:133-145 | a sticker of non-negative size contains its own centre at every rotation |
| RotatedHit.UnrotatedIsAxisAligned | Javascripts/final.js:136-144 | at rotation 0 the test is plain containment in the axis-aligned rectangle |
| RotatedHit.FarPointMisses | Javascripts/final.js:138-144 | for a true rotation, a point farther from the centre than the half-diagonal is never hit |
| FinalPage.AddSticker | Javascripts/final.js:106-118 | appends exactly one sticker and leaves the earlier ones unchanged; the new sticker is centred on the canvas at two thirds of the image size, has rotation 0, is not dragging and is selected; its id is fresh; only the list, the selection and the id counter change |
| FinalPage.PressButton | Javascripts/final.js:295-307 | every sticker button keeps the board invariant, including the seaweed/bubble indices below 2 |
| FinalPage.DoubleTapDelete | Javascripts/final.js:172-183 | a confirmed double tap removes exactly the topmost hit sticker and clears the selection; declined or missed, the board is unchanged; the tap timer resets; nothing else changes |
| FinalPage.SelectAt | Javascripts/final.js:198-237 | a hit selects the topmost hit sticker, marks it dragging, records the offset and makes it last; the others keep their order; a hit on a valid board leaves `indexOf` of the selection at the top; a miss clears the selection and changes nothing else; a hit changes only the list, the selection and the drag offset |
| FinalPage.SelectAtPermutes | Javascripts/final.js:206-207 | selecting never adds or loses a sticker: the ids are permuted |
| FinalPage.PickUpAt | Javascripts/final.js:202-207 | picking up the `i`th sticker selects it, marks it dragging, records the pointer's offset from its corner and brings it to the front; on a valid board the result is valid and `indexOf` finds the selection at the top |
| FinalPage.PinchStart | Javascripts/final.js:189-195 | the gesture start records distance, angle and the selected sticker's size and changes nothing else |
| FinalPage.PointerDown | Javascripts/final.js:164-238 | a second single tap within 300 ms deletes; otherwise a single touch restarts the tap timer and selects; the mouse selects; two fingers on a selection start the gesture; any other touch count changes nothing |
| FinalPage.PinchMove | Javascripts/final.js:246-254 | with a recorded distance, the selected sticker's size is the start size times current/initial distance, its rotation grows by the angle turned since the previous frame, and that angle becomes the reference; nothing else changes; without a distance nothing changes |
| FinalPage.DragMove | Javascripts/final.js:262-268 | only a dragging selected sticker moves, to pointer minus offset; every other sticker is unchanged |
| FinalPage.PointerMove | Javascripts/final.js:240-269 | pointer moves keep the board invariant |
| FinalPage.PointerUp | Javascripts/final.js:271-280 | the selected sticker stops dragging and nothing else in the list changes; fewer than two fingers (or the mouse) reset the pinch distance to 0; no other field changes |
| FinalPage.KeyDown | Javascripts/final.js:459-489 | Delete/Backspace removes exactly the selected sticker, clears the selection and changes nothing else; arrows change only its rotation by −5/+5; `+`/`=` and `-`/`_` scale only its width and height by 1.1/0.9; no selection or another key changes nothing |
| FinalPage.Reset | Javascripts/final.js:310-314 | reset empties the list, clears the selection and changes nothing else |
| FinalSession.Step | Javascripts/final.js:283-314 | every pointer, key, sticker-button or reset event keeps the board invariant |
| FinalSession.Run | Javascripts/final.js:283-292 | after any sequence of events the board invariant holds: the selection is absent or on the board |
| FinalSession.ReachableBoardsAreValid | Javascripts/final.js:37-45 | from the page's initial state every reachable board has distinct ids and a valid selection |
| FinalSession.Moves | Javascripts/final.js:284-290 | any run of mouse or touch moves from a valid board keeps the board invariant |
| FinalSession.PickUp | Javascripts/final.js:202-207 | the picked sticker ends on top, selected, marked dragging, with the pointer's offset from its corner recorded |
| FinalSession.DragFollowsPointer | Javascripts/final.js:204-205 | after mouse-down on a sticker and a move, the sticker is on top and displaced by exactly the pointer's movement |
| FinalSession.PinchGesture | Javascripts/final.js:246-254 | over any number of two-finger frames, size = start size × last/initial distance and rotation = start rotation + (last angle − reference angle): the per-frame increments telescope |
| FinalSession.ArrowsCancel | Javascripts/final.js:469-476 | ArrowRight undoes ArrowLeft |
| FinalSession.GrowThenShrink | Javascripts/final.js:477-486 | `+` then `-` leaves the sticker at 0.99 of its size |
| FinalSession.SeaweedAlternates | Javascripts/final.js:297-301 | two seaweed presses add one of each image and restore the index |
| FinalSession.BubbleAlternates | Javascripts/final.js:303-307 | two bubble presses add one of each image and restore the index |
| UploadPage.DrawPhoto | Javascripts/upload.js:31-43 | a new image, or any image when none is being edited, gets scale 1 and is centred in the half |
| UploadPage.YOffset | Javascripts/upload.js:33 | the active half starts at canvas y 0 for the first photo and at 735 once the stage is above 0 |
| UploadPage.LoadImage | Javascripts/upload.js:327-332 | a loaded upload replaces any current image at scale 1, centred in the half; stage, drag state and finger distance are untouched |
| UploadPage.ZoomToward | Javascripts/upload.js:83-84 | zooming keeps the image point under the anchor fixed: (anchor − pos)/scale is unchanged |
| UploadPage.ZoomIn | Javascripts/upload.js:75-87 | scale becomes min(scale × 1.2, 5) about the half's centre; only scale and position change; no image, no change; stays in [0.1, 5] |
| UploadPage.ZoomOut | Javascripts/upload.js:89-101 | scale becomes max(scale / 1.2, 0.1) about the half's centre; only scale and position change; no image, no change; stays in [0.1, 5] |
| UploadPage.Wheel | Javascripts/upload.js:104-131 | only while editing and with the pointer in the active half, zoom by 1.1 in or out, clamped, keeping the pointer's image point fixed; only scale and position change |
| UploadPage.PinchZoom | Javascripts/upload.js:165-183 | with a recorded distance, scale × new/previous distance clamped to [0.1, 5] about the midpoint; the new distance is recorded and only scale and position change besides; without one only the distance is recorded |
| UploadPage.StartDrag | Javascripts/upload.js:205-209 | starts a drag and records the pointer's offset from the image corner; nothing else changes |
| UploadPage.DoDrag | Javascripts/upload.js:211-218 | moves the image only while dragging an image |
| UploadPage.EndDrag | Javascripts/upload.js:220-223 | ends the drag and changes nothing else |
| UploadPage.DragMovesByPointerDisplacement | Javascripts/upload.js:205-215 | after startDrag(x0, y0) then doDrag(x, y) the position is the old one plus (x − x0, y − y0) |
| UploadPage.MouseDown | Javascripts/upload.js:226-236 | a drag starts only while editing and inside the active half |
| UploadPage.MouseMove | Javascripts/upload.js:238-257 | the mouse drags only while editing and dragging |
| UploadPage.TouchStart | Javascripts/upload.js:142-160 | two fingers record the distance and stop dragging; one finger in the active half starts a drag and one finger outside it does nothing; other counts change nothing |
| UploadPage.TouchMove | Javascripts/upload.js:162-193 | two fingers pinch-zoom with the corrected frame, one finger drags, other counts change nothing, and the zoom stays in [0.1, 5] |
| UploadPage.TouchEnd | Javascripts/upload.js:195-202 | fewer than two fingers left resets the distance to 0; none left ends the drag |
| UploadPage.ConfirmCurrentPhoto | Javascripts/upload.js:267-277 | with an image: the stage goes up by exactly 1, the image, position and scale reset, and finalisation happens exactly at stage 2; without an image nothing happens |
| UploadPage.Ready | Javascripts/upload.js:286-296 | the ready button confirms exactly while a photo is being edited, otherwise hands off |
| UploadPage.FinishedStripIgnoresInput | Javascripts/upload.js:142-143 | at stage 2 mouse-down, mouse-move, wheel, touch-start and touch-move change nothing; mouse-up and touch-end have no stage guard and still reset the drag flag and the finger distance |
| UploadPage.ZoomOutUndoesZoomIn | Javascripts/upload.js:75-101 | zoom-out after an unclamped zoom-in restores scale and position |
| UploadPage.ZoomInUndoesZoomOut | Javascripts/upload.js:89-101 | zoom-in after an unclamped zoom-out restores scale and position |
| UploadPage.ZoomTowardInverse | Javascripts/upload.js:126-127 | zooming to a scale and back about the same anchor restores the state |
| UploadSession.Step | Javascripts/upload.js:226-292 | on the corrected page, every input keeps scale in [0.1, 5] and the stage in 0..2, and advances the stage by at most 1 |
| UploadSession.Run | Javascripts/upload.js:23-28 | over any run the stage never decreases and the strip is finalised once exactly when the stage reaches 2 |
| UploadSession.FinalizedOnceAtStageTwo | Javascripts/upload.js:270-276 | from page load, finalisation happens at most once, and exactly when both photos are confirmed |
| UploadSession.TwoConfirmationsFinalize | Javascripts/upload.js:286-291 | two loaded and confirmed photos reach stage 2 and finalise once |
| UploadPinchAsWritten.PinchScaleAsWritten | Javascripts/upload.js:167-171 | with a recorded distance the unguarded computation agrees with the clamp |
| UploadPinchAsWritten.UnrecordedPinchJumpsToMaximum | Javascripts/upload.js:168-171 | with no recorded distance, any two-finger move sets the scale to 5 |
| UploadPinchAsWritten.UnrecordedStillPinchIsNaN | Javascripts/upload.js:168-171 | with no recorded distance and coinciding fingers the scale becomes NaN |
| UploadPinchAsWritten.UnrecordedPinchIsReachable | Javascripts/upload.js:145-149 | three fingers down together then one lifted leaves an edited photo with no recorded distance |
| UploadPinchAsWritten.GuardedPinchKeepsScale | Javascripts/upload.js:165-171 | the guarded frame keeps the scale when no distance is recorded |
| CameraPage.Start | Javascripts/camera.js:25-29 | the page starts at stage 0, front camera, zoom 1, no track, with the take-photo button enabled |
| CameraPage.CentredCrop | Javascripts/camera.js:149-164 | the crop has aspect exactly 1176/735, lies inside the frame and is centred; a wider frame keeps full height, otherwise full width |
| CameraPage.ShrinkAboutCentre | Javascripts/camera.js:169-175 | software zoom shrinks the rectangle by 1/zoom about the same centre, inside the original |
| CameraPage.ZoomedCrop | Javascripts/camera.js:169-175 | a crop with the half's aspect, shrunk by the zoom about its centre, stays inside the frame, centred, with the same aspect |
| CameraPage.CaptureRect | Javascripts/camera.js:149-176 | the source rectangle is the centred crop; under software zoom (no hardware zoom and zoom above 1) it is that crop shrunk about its centre |
| CameraPage.CaptureRectFits | Javascripts/camera.js:149-176 | the captured source rectangle is inside the frame, centred, of the half's aspect, and under software zoom (no hardware zoom and zoom above 1) the centred crop shrunk by the zoom |
| CameraPage.CapturePhoto | Javascripts/camera.js:136-197 | a frame of zero width or height does nothing; otherwise the crop is drawn into the stage's half (mirrored for the front camera), the stage rises by 1, finalisation happens exactly at 2, and the button is enabled when the stage becomes 1 and otherwise keeps its state |
| CameraPage.TakePhoto | Javascripts/camera.js:296-301 | a disabled button, or a stage above 1, does nothing; otherwise the button is disabled and a capture runs; a capture with no frame leaves the button disabled; after a first shot the button is enabled |
| CameraPage.OrDefault | Javascripts/camera.js:277-278 | a missing or zero slider attribute falls back to the default |
| Geometry.Clamp | Javascripts/camera.js:73 | `Math.max(lo, Math.min(hi, v))` lies in [lo, hi] when lo ≤ hi, is `v` when `v` is inside, and is the nearer bound otherwise |
| CameraPage.ApplyZoom | Javascripts/camera.js:65-105 | no track, no change; hardware zoom clamps into [min, max] and applies only if accepted; software zoom takes the level as given; only the zoom and the slider's value change, never its step or bounds |
| CameraPage.ZoomIn | Javascripts/camera.js:276-281 | zooms to min(zoom + step, max), defaults 0.1 and 3 |
| CameraPage.ZoomOut | Javascripts/camera.js:283-288 | zooms to max(zoom − step, min), defaults 0.1 and 1 |
| CameraPage.SetupZoomControls | Javascripts/camera.js:110-131 | the slider spans the hardware range in 20 steps, or 1..3 by 0.1 for software zoom |
| CameraPage.StreamReady | Javascripts/camera.js:239-258 | a new stream installs its track and keeps zoom, stage and facing; the slider is set up for it: the hardware range in 20 steps at the current zoom, or 1..3 by 0.1 at 1 |
| CameraPage.SoftwareStreamKeepsZoomInRange | Javascripts/camera.js:244-248 | after a stream without hardware zoom arrives, both zoom buttons keep a zoom in [1, 3] |
| CameraPage.ToggleCamera | Javascripts/camera.js:267-271 | the facing flips and the zoom resets to 1 |
| CameraPage.ToggleTwice | Javascripts/camera.js:267-270 | toggling twice restores the facing |
| CameraPage.HardwareZoomStaysInRange | Javascripts/camera.js:72-73 | with hardware zoom the buttons keep the zoom within the capability range |
| CameraPage.SoftwareZoomStaysInRange | Javascripts/camera.js:124-128 | with software zoom and the slider set up, the buttons keep the zoom in [1, 3] |
| CameraSession.Step | Javascripts/camera.js:293-320 | every action advances the stage by at most 1 and only below 2; a shot lands in the stage's half; a disabled take-photo button stays disabled and takes no shot |
| CameraSession.Run | Javascripts/camera.js:189-196 | over any run the stage stays ≤ 2, one shot is drawn per stage step, and finalisation happens once exactly when the stage reaches 2 |
| CameraSession.DisabledButtonTakesNoPhotos | Javascripts/camera.js:299 | once the button is disabled, no run of actions takes a photo, moves the stage or finalises |
| CameraSession.NotReadyClickLocksCapture | Javascripts/camera.js:142-145 | a first click that finds no video frame leaves the page at stage 0 with no photo, whatever follows |
| CameraSession.TwoReadyClicksFinish | Javascripts/camera.js:189-196 | two clicks that each find a frame take both photos and finalise once |
| CameraSession.AtMostTwoShotsTopThenBottom | Javascripts/camera.js:297 | from page load at most two photos are taken, top half then bottom half, and the strip is finalised exactly when both are taken |

## Left out

- Drawing is not modelled: the canvas redraw, `drawImage`, clipping, the selection outline
  and handles, and the frame overlay. It is pixel output with no effect on the state.
- `Math.cos`, `Math.sin`, `Math.atan2` and `Math.sqrt` are not modelled. The handlers take
  an abstract hit test; finger distances and angles are inputs; `RotatedHit.InSticker` takes
  the cosine and sine as inputs.
- Screen-to-canvas conversion (`getBoundingClientRect`) is left out. Pointer positions are
  given in canvas coordinates.
- `Date.now` and `confirm` are left out. The clock reading and the prompt's answer are event
  inputs.
- Asynchrony is not modelled: image `onload`, the countdown interval, `getUserMedia` and
  stream shutdown, `applyConstraints` and the 50 ms navigation delay. Each completion is one
  atomic step. A rejected zoom constraint is the `accepted = false` input.
- I/O and third-party calls are left out: local storage hand-off, the share URL and QR code
  with its text fallback, downloads, navigation, the scan dialog, modal show/hide, cursor
  styles, CSS transforms and the video element's placement. None of them has state logic.
- Floating-point rounding is not modelled. Numbers are exact reals, except that
  `UploadPinchAsWritten` models Infinity and NaN where the unguarded division produces them.
- The slider's initial attributes come from the page markup, which is not part of this
  model. `CameraPage.Start` takes the slider as a parameter. The markup is also taken to
  leave the take-photo button enabled at load.
- The countdown is atomic: a click and the capture at the end of its countdown are one step.
  Actions cannot fall between them. Toggling the camera during the countdown therefore
  appears either as a capture that finds no frame or as a toggle before the click.
- UploadPage.ZoomIn: requires a positive current scale. In the corrected page every reachable
  state has a scale in [0.1, 5] (`UploadSession.Step`), so the division by the old scale is
  defined. The code as written can reach NaN (see "## Findings").
- UploadPage.ZoomOut: requires a positive current scale, for the same reason.
- UploadPage.Wheel: requires a positive current scale, for the same reason.
- UploadPage.ZoomToward: requires positive old and new scales, for the same reason.
- UploadPage.PinchZoom: requires a positive scale and non-negative finger distances. Distances
  are square roots, and in the corrected page the scale is always in [0.1, 5].
- UploadPage.TouchMove: uses the corrected pinch frame `PinchZoom` from "## Findings", not the
  unguarded division at Javascripts/upload.js:168-171. Its zoom bound therefore holds only
  for the corrected page; `UploadPinchAsWritten` models the code as written. It requires the
  state invariant and a non-negative distance because it delegates to `PinchZoom`.
- UploadSession.Step: uses the corrected `UploadPage.TouchMove`. Its scale bound holds for the
  corrected page only; as written, an unrecorded distance sets the scale to 5 or NaN
  (`UploadPinchAsWritten.UnrecordedStillPinchIsNaN`).
- FinalPage.PointerMove: states only that the invariant is kept. The per-branch behaviour is
  stated by `FinalPage.PinchMove` and `FinalPage.DragMove`.
- FinalPage.PressButton: states only that the invariant is kept. The added sticker is
  described by `FinalPage.AddSticker`, and the alternation by `FinalSession.SeaweedAlternates`
  and `FinalSession.BubbleAlternates`.

## Findings

| source | as written | input that shows it | evidently intended | confidence | as-written member | corrected member |
|---|---|---|---|---|---|---|
| Javascripts/upload.js:168-171 | the two-finger touch-move divides by `lastTouchDistance` without checking that a distance was recorded | a photo is loaded; three fingers land in one touch-start, which records nothing; one finger lifts and two remain, so nothing is reset; the fingers move; `newDistance / 0` is Infinity and the zoom jumps to 5, or becomes NaN if the two fingers coincide | zoom only once a previous distance is recorded, as the decoration page does with its `initialPinchDistance > 0` guard (Javascripts/final.js:246) | medium; not executed | UploadPinchAsWritten.UnrecordedPinchJumpsToMaximum | UploadPage.PinchZoom |
