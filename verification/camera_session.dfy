/** Runs of actions on the camera page: the stage counter goes 0, 1, 2 and
    stops; the strip is finalised exactly once; the first capture fills the
    top half and the second the bottom half. */
module CameraSession {
  import opened Wrappers
  import opened Geometry
  import opened CameraPage

  /** Every action the camera page reacts to. `vW`, `vH` are the video's frame
      size when the countdown ends; `accepted` says whether the device accepted
      a hardware zoom constraint. */
  datatype Action =
    | TakePhotoButton(vW: nat, vH: nat)
    | ToggleButton
    | ZoomInButton(accepted: bool)
    | ZoomOutButton(accepted: bool)
    | SliderInput(level: real, accepted: bool)
    | StreamArrived(track: Track)

  function Step(c: Camera, a: Action): (r: Capture)
    ensures r.next.stage == c.stage || (c.stage <= 1 && r.next.stage == c.stage + 1)
    ensures r.shot.Some? <==> r.next.stage == c.stage + 1
    ensures r.shot.Some? ==> r.shot.value.destY == (if c.stage == 0 then 0.0 else HALF)
    ensures r.finalize <==> c.stage < 2 && r.next.stage == 2
    ensures c.takeDisabled ==> r.shot.None? && r.next.takeDisabled
  {
    match a
    case TakePhotoButton(vW, vH) => TakePhoto(c, vW, vH)
    case ToggleButton => Capture(ToggleCamera(c), None, false)
    case ZoomInButton(accepted) => Capture(ZoomIn(c, accepted), None, false)
    case ZoomOutButton(accepted) => Capture(ZoomOut(c, accepted), None, false)
    case SliderInput(level, accepted) => Capture(ApplyZoom(c, level, accepted), None, false)
    case StreamArrived(track) => Capture(StreamReady(c, track), None, false)
  }

  /** The state after a run, the shots drawn in order and how many times the
      strip was finalised. */
  datatype Outcome = Outcome(last: Camera, shots: seq<Shot>, finalizations: nat)

  function Run(c: Camera, actions: seq<Action>): (r: Outcome)
    requires c.stage <= 2
    ensures c.stage <= r.last.stage <= 2
    ensures |r.shots| == r.last.stage - c.stage
    ensures forall j :: 0 <= j < |r.shots| ==>
              r.shots[j].destY == (if c.stage + j == 0 then 0.0 else HALF)
    ensures r.finalizations == (if c.stage < 2 && r.last.stage == 2 then 1 else 0)
    decreases |actions|
  {
    if |actions| == 0 then Outcome(c, [], 0)
    else
      var step := Step(c, actions[0]);
      var rest := Run(step.next, actions[1..]);
      var shots := if step.shot.Some? then [step.shot.value] + rest.shots else rest.shots;
      Outcome(rest.last, shots, rest.finalizations + (if step.finalize then 1 else 0))
  }

  /** Once the take-photo button is disabled with no capture under way, no
      action re-enables it: no further photo is taken and the stage stays. */
  lemma {:induction false} DisabledButtonTakesNoPhotos(c: Camera, actions: seq<Action>)
    requires c.stage <= 2 && c.takeDisabled
    ensures var r := Run(c, actions);
            r.shots == [] && r.last.stage == c.stage && r.finalizations == 0
    decreases |actions|
  {
    if |actions| > 0 {
      DisabledButtonTakesNoPhotos(Step(c, actions[0]).next, actions[1..]);
    }
  }

  /** A click while the video has no frame yet (before the stream's metadata
      arrives, or after a toggle has detached the old stream) leaves the
      button disabled for good: whatever follows, no photo is taken. */
  lemma NotReadyClickLocksCapture(slider: Slider, vH: nat, actions: seq<Action>)
    ensures var r := Run(Start(slider), [TakePhotoButton(0, vH)] + actions);
            r.shots == [] && r.last.stage == 0 && r.finalizations == 0
  {
    var es := [TakePhotoButton(0, vH)] + actions;
    assert es[1..] == actions;
    DisabledButtonTakesNoPhotos(Step(Start(slider), es[0]).next, actions);
  }

  /** Two clicks that each find a frame fill both halves and finalise the
      strip: the first capture re-enables the button for the second. */
  lemma TwoReadyClicksFinish(slider: Slider, vW: nat, vH: nat)
    requires vW > 0 && vH > 0
    ensures var r := Run(Start(slider), [TakePhotoButton(vW, vH), TakePhotoButton(vW, vH)]);
            |r.shots| == 2 && r.last.stage == 2 && r.finalizations == 1
  {
    var es := [TakePhotoButton(vW, vH), TakePhotoButton(vW, vH)];
    var c1 := Step(Start(slider), es[0]).next;
    assert c1.stage == 1 && !c1.takeDisabled;
    assert es[1..] == [TakePhotoButton(vW, vH)];
    assert es[1..][1..] == [];
  }

  /** From page load, any run takes at most two photos, top half first, and
      finalises the strip at most once: exactly when both were taken. */
  lemma AtMostTwoShotsTopThenBottom(slider: Slider, actions: seq<Action>)
    ensures var r := Run(Start(slider), actions);
            && |r.shots| <= 2
            && (|r.shots| >= 1 ==> r.shots[0].destY == 0.0)
            && (|r.shots| == 2 ==> r.shots[1].destY == HALF)
            && (r.finalizations == 1 <==> |r.shots| == 2)
            && r.finalizations <= 1
  {
  }
}
