/** The camera page: two frames of the live video are captured into the top
    and bottom halves of the strip, each cropped to the half's aspect ratio
    about the frame's centre and, under software zoom, shrunk about that
    centre. Also the zoom controls and the front/back camera toggle. Stream
    acquisition, the countdown and drawing are left out: a capture is one
    atomic step that reports the source rectangle it would draw. */
module CameraPage {
  import opened Wrappers
  import opened Geometry

  /** Aspect ratio of one half of the strip: 1176 / 735 = 1.6. */
  const TARGET_ASPECT: real := WIDTH / HALF

  /** Zoom button defaults when the slider attributes do not parse. */
  const DEFAULT_STEP: real := 0.1
  const DEFAULT_MAX: real := 3.0
  const DEFAULT_MIN: real := 1.0

  /** "user" is the front camera, "environment" the back one. */
  datatype Facing = User | Environment

  /** A hardware zoom capability range. */
  datatype ZoomRange = ZoomRange(min: real, max: real)

  /** The current video track; `zoom` is its hardware zoom capability, if any. */
  datatype Track = Track(zoom: Option<ZoomRange>)

  /** The zoom slider's attributes as `parseFloat` reads them (None when they
      do not parse) and its value. */
  datatype Slider = Slider(min: Option<real>, max: Option<real>, step: Option<real>, value: real)

  /** `takeDisabled` is the take-photo button's `disabled` property: a
      disabled button delivers no clicks. */
  datatype Camera = Camera(
    stage: nat,
    facing: Facing,
    zoom: real,
    track: Option<Track>,
    slider: Slider,
    takeDisabled: bool)

  /** The state when the page loads, before any stream has arrived; the
      take-photo button starts enabled. */
  function Start(slider: Slider): (c: Camera)
    ensures c.stage == 0 && c.facing == User && c.zoom == 1.0 && c.track.None?
    ensures !c.takeDisabled && c.slider == slider
  {
    Camera(0, User, 1.0, None, slider, false)
  }

  // ------------------------------------------------------------------ crop

  /** The centred crop of a `vW` x `vH` frame with the aspect ratio of a half
      of the strip: a frame wider than that keeps its full height and loses
      equal strips left and right; otherwise it keeps its full width and loses
      equal strips top and bottom. */
  function CentredCrop(vW: real, vH: real): (r: Rect)
    requires vW > 0.0 && vH > 0.0
    ensures 0.0 < r.w && 0.0 < r.h
    ensures r.w == r.h * TARGET_ASPECT
    ensures 0.0 <= r.x && r.x + r.w <= vW && 0.0 <= r.y && r.y + r.h <= vH
    ensures r.x + r.w / 2.0 == vW / 2.0 && r.y + r.h / 2.0 == vH / 2.0
    ensures vW / vH > TARGET_ASPECT ==> r.h == vH && r.y == 0.0
    ensures vW / vH <= TARGET_ASPECT ==> r.w == vW && r.x == 0.0
  {
    if vW / vH > TARGET_ASPECT then
      AspectCompare(vW, vH);
      var sw := vH * TARGET_ASPECT;
      Rect((vW - sw) / 2.0, 0.0, sw, vH)
    else
      AspectCompare(vW, vH);
      var sh := vW / TARGET_ASPECT;
      Rect(0.0, (vH - sh) / 2.0, vW, sh)
  }

  /** Comparing `vW / vH` with the target aspect is comparing `vW` with `vH * 1.6`. */
  lemma AspectCompare(vW: real, vH: real)
    requires vW > 0.0 && vH > 0.0
    ensures vW / vH > TARGET_ASPECT <==> vW > vH * TARGET_ASPECT
  {
    assert vW == (vW / vH) * vH;
  }

  /** Software zoom by `z`: the rectangle shrinks to `1/z` of its size about
      the same centre. */
  function ShrinkAboutCentre(r: Rect, z: real): (s: Rect)
    requires z > 1.0 && r.w >= 0.0 && r.h >= 0.0
    ensures s.w * z == r.w && s.h * z == r.h
    ensures s.x + s.w / 2.0 == r.x + r.w / 2.0 && s.y + s.h / 2.0 == r.y + r.h / 2.0
    ensures r.x <= s.x && s.x + s.w <= r.x + r.w && r.y <= s.y && s.y + s.h <= r.y + r.h
  {
    var newW := Shrunk(r.w, z);
    var newH := Shrunk(r.h, z);
    Rect(r.x + (r.w - newW) / 2.0, r.y + (r.h - newH) / 2.0, newW, newH)
  }

  /** A length times the zoom factor `1 / z`. */
  function Shrunk(a: real, z: real): (r: real)
    requires z > 1.0 && a >= 0.0
    ensures 0.0 <= r <= a
    ensures r * z == a
  {
    var f := 1.0 / z;
    assert 0.0 < f < 1.0;
    assert a * f <= a * 1.0;
    assert a * f * z == a * (f * z);
    a * f
  }

  /** Software zoom applies when the track offers no hardware zoom (or there is
      no track) and the zoom is above 1. */
  predicate SoftwareZoom(c: Camera) {
    (c.track.None? || c.track.value.zoom.None?) && c.zoom > 1.0
  }

  /** The source rectangle a capture copies from the frame. */
  function CaptureRect(c: Camera, vW: real, vH: real): (r: Rect)
    requires vW > 0.0 && vH > 0.0
    ensures !SoftwareZoom(c) ==> r == CentredCrop(vW, vH)
    ensures SoftwareZoom(c) ==> r == ZoomedCrop(CentredCrop(vW, vH), c.zoom, vW, vH)
  {
    var crop := CentredCrop(vW, vH);
    if SoftwareZoom(c) then ZoomedCrop(crop, c.zoom, vW, vH) else crop
  }

  /** Whatever the zoom, the source rectangle lies inside the frame, has the
      aspect of a half of the strip and is centred on the frame; under
      software zoom it is the centred crop shrunk by the zoom factor. */
  lemma CaptureRectFits(c: Camera, vW: real, vH: real)
    requires vW > 0.0 && vH > 0.0
    ensures var r := CaptureRect(c, vW, vH);
            && 0.0 <= r.x && r.x + r.w <= vW && 0.0 <= r.y && r.y + r.h <= vH
            && r.w == r.h * TARGET_ASPECT
            && r.x + r.w / 2.0 == vW / 2.0 && r.y + r.h / 2.0 == vH / 2.0
            && (SoftwareZoom(c) ==> r.w * c.zoom == CentredCrop(vW, vH).w
                                    && r.h * c.zoom == CentredCrop(vW, vH).h)
  {
  }

  /** A crop of a `vW` x `vH` frame with the target aspect, centred, shrunk
      about its centre by `z`: still inside the frame, centred, with the
      target aspect. */
  function ZoomedCrop(crop: Rect, z: real, vW: real, vH: real): (s: Rect)
    requires z > 1.0 && 0.0 <= crop.w && 0.0 <= crop.h
    requires 0.0 <= crop.x && crop.x + crop.w <= vW && 0.0 <= crop.y && crop.y + crop.h <= vH
    requires crop.w == crop.h * TARGET_ASPECT
    requires crop.x + crop.w / 2.0 == vW / 2.0 && crop.y + crop.h / 2.0 == vH / 2.0
    ensures s.w * z == crop.w && s.h * z == crop.h
    ensures 0.0 <= s.x && s.x + s.w <= vW && 0.0 <= s.y && s.y + s.h <= vH
    ensures s.w == s.h * TARGET_ASPECT
    ensures s.x + s.w / 2.0 == vW / 2.0 && s.y + s.h / 2.0 == vH / 2.0
  {
    var s := ShrinkAboutCentre(crop, z);
    KeepsAspect(crop.w, crop.h, s.w, s.h, z);
    s
  }

  lemma KeepsAspect(w: real, h: real, w': real, h': real, z: real)
    requires z > 1.0 && w == h * TARGET_ASPECT && w' * z == w && h' * z == h
    ensures w' == h' * TARGET_ASPECT
  {
    assert w' * z == (h' * TARGET_ASPECT) * z;
  }

  // --------------------------------------------------------------- capture

  /** What one capture draws: the source rectangle, the canvas y of the half it
      fills, and whether it is mirrored (front camera). */
  datatype Shot = Shot(source: Rect, destY: real, mirrored: bool)

  datatype Capture = Capture(next: Camera, shot: Option<Shot>, finalize: bool)

  /** `capturePhoto`: a video with no frame yet does nothing; otherwise the
      crop is drawn into the half for the current stage, the stage advances by
      one and the strip is finalised when the stage becomes 2. Only the first
      capture re-enables the take-photo button. */
  function CapturePhoto(c: Camera, vW: nat, vH: nat): (r: Capture)
    ensures vW == 0 || vH == 0 ==> r == Capture(c, None, false)
    ensures vW > 0 && vH > 0 ==>
              && r.next == c.(stage := c.stage + 1, takeDisabled := r.next.takeDisabled)
              && (r.next.takeDisabled <==> c.stage != 0 && c.takeDisabled)
              && r.shot.Some?
              && r.shot.value.source == CaptureRect(c, vW as real, vH as real)
              && r.shot.value.destY == (if c.stage == 0 then 0.0 else HALF)
              && (r.shot.value.mirrored <==> c.facing == User)
              && (r.finalize <==> c.stage + 1 == 2)
  {
    if vW == 0 || vH == 0 then Capture(c, None, false)
    else
      var shot := Shot(CaptureRect(c, vW as real, vH as real),
                       if c.stage == 0 then 0.0 else HALF,
                       c.facing == User);
      var next := c.(stage := c.stage + 1,
                     takeDisabled := if c.stage + 1 == 1 then false else c.takeDisabled);
      Capture(next, Some(shot), next.stage == 2)
  }

  /** A click on the take-photo button: a disabled button delivers nothing
      and the handler ignores clicks once both halves are taken. Otherwise the
      button is disabled and, after the countdown, a capture runs. A capture
      that finds no frame leaves the button disabled. */
  function TakePhoto(c: Camera, vW: nat, vH: nat): (r: Capture)
    ensures c.takeDisabled || c.stage > 1 ==> r == Capture(c, None, false)
    ensures !c.takeDisabled && c.stage <= 1 ==> r == CapturePhoto(c.(takeDisabled := true), vW, vH)
    ensures !c.takeDisabled && c.stage <= 1 && (vW == 0 || vH == 0) ==>
              r == Capture(c.(takeDisabled := true), None, false)
    ensures r.shot.Some? ==> !c.takeDisabled && c.stage <= 1
    ensures r.shot.Some? && r.next.stage == 1 ==> !r.next.takeDisabled
    ensures r.next.stage <= 2 || r.next.stage == c.stage
  {
    if c.takeDisabled || c.stage > 1 then Capture(c, None, false)
    else CapturePhoto(c.(takeDisabled := true), vW, vH)
  }

  // ------------------------------------------------------------------ zoom

  /** `parseFloat(attribute) || default`: a missing or zero attribute falls
      back to the default. */
  function OrDefault(v: Option<real>, default: real): (r: real)
    ensures v.Some? && v.value != 0.0 ==> r == v.value
    ensures v.None? || v.value == 0.0 ==> r == default
  {
    match v
    case Some(x) => if x != 0.0 then x else default
    case None => default
  }

  /** `applyZoom`: without a track nothing happens. With hardware zoom the
      level is clamped into the capability range and, if the device accepts
      the constraint, becomes the zoom; a rejected constraint changes nothing.
      Without hardware zoom the level is taken as it is. */
  function ApplyZoom(c: Camera, level: real, accepted: bool): (r: Camera)
    ensures c.track.None? ==> r == c
    ensures r == c.(zoom := r.zoom, slider := c.slider.(value := r.slider.value))
    ensures c.track.Some? && c.track.value.zoom.Some? ==>
              var range := c.track.value.zoom.value;
              && (accepted ==> r.zoom == Clamp(range.min, range.max, level) && r.slider.value == r.zoom)
              && (accepted && range.min <= range.max ==> range.min <= r.zoom <= range.max)
              && (!accepted ==> r == c)
    ensures c.track.Some? && c.track.value.zoom.None? ==> r.zoom == level && r.slider.value == level
  {
    match c.track
    case None => c
    case Some(track) =>
      match track.zoom
      case Some(range) =>
        var clamped := Clamp(range.min, range.max, level);
        if accepted then c.(zoom := clamped, slider := c.slider.(value := clamped)) else c
      case None => c.(zoom := level, slider := c.slider.(value := level))
  }

  /** The zoom-in button: one slider step up, capped at the slider maximum
      (defaults 0.1 and 3). */
  function ZoomIn(c: Camera, accepted: bool): (r: Camera)
    ensures r == ApplyZoom(c, Min(c.zoom + OrDefault(c.slider.step, DEFAULT_STEP),
                                  OrDefault(c.slider.max, DEFAULT_MAX)), accepted)
    ensures c.track.Some? && c.track.value.zoom.None? ==>
              r.zoom <= OrDefault(c.slider.max, DEFAULT_MAX)
              && r.zoom <= c.zoom + OrDefault(c.slider.step, DEFAULT_STEP)
  {
    var level := Min(c.zoom + OrDefault(c.slider.step, DEFAULT_STEP), OrDefault(c.slider.max, DEFAULT_MAX));
    ApplyZoom(c, level, accepted)
  }

  /** The zoom-out button: one slider step down, floored at the slider minimum
      (defaults 0.1 and 1). */
  function ZoomOut(c: Camera, accepted: bool): (r: Camera)
    ensures r == ApplyZoom(c, Max(c.zoom - OrDefault(c.slider.step, DEFAULT_STEP),
                                  OrDefault(c.slider.min, DEFAULT_MIN)), accepted)
    ensures c.track.Some? && c.track.value.zoom.None? ==>
              r.zoom >= OrDefault(c.slider.min, DEFAULT_MIN)
              && r.zoom >= c.zoom - OrDefault(c.slider.step, DEFAULT_STEP)
  {
    var level := Max(c.zoom - OrDefault(c.slider.step, DEFAULT_STEP), OrDefault(c.slider.min, DEFAULT_MIN));
    ApplyZoom(c, level, accepted)
  }

  /** `setupZoomControls`, once a track's metadata has loaded: the slider spans
      the hardware range in 20 steps, or 1..3 in steps of 0.1 for software zoom. */
  function SetupZoomControls(c: Camera): (r: Camera)
    ensures c.track.None? ==> r == c
    ensures r == c.(slider := r.slider)
    ensures c.track.Some? && c.track.value.zoom.Some? ==>
              var range := c.track.value.zoom.value;
              r.slider == Slider(Some(range.min), Some(range.max),
                                 Some((range.max - range.min) / 20.0), c.zoom)
    ensures c.track.Some? && c.track.value.zoom.None? ==>
              r.slider == Slider(Some(1.0), Some(3.0), Some(0.1), 1.0)
  {
    match c.track
    case None => c
    case Some(track) =>
      match track.zoom
      case Some(range) =>
        c.(slider := Slider(Some(range.min), Some(range.max), Some((range.max - range.min) / 20.0), c.zoom))
      case None => c.(slider := Slider(Some(1.0), Some(3.0), Some(0.1), 1.0))
  }

  /** A new stream has delivered its track and metadata. */
  function StreamReady(c: Camera, track: Track): (r: Camera)
    ensures r == c.(track := Some(track), slider := r.slider)
    ensures track.zoom.Some? ==>
              var range := track.zoom.value;
              r.slider == Slider(Some(range.min), Some(range.max),
                                 Some((range.max - range.min) / 20.0), c.zoom)
    ensures track.zoom.None? ==> r.slider == Slider(Some(1.0), Some(3.0), Some(0.1), 1.0)
  {
    SetupZoomControls(c.(track := Some(track)))
  }

  /** `toggleCamera`: switch between front and back camera and reset the zoom. */
  function ToggleCamera(c: Camera): (r: Camera)
    ensures r.facing != c.facing && r.zoom == 1.0
    ensures r == c.(facing := r.facing, zoom := 1.0)
  {
    c.(facing := if c.facing == User then Environment else User, zoom := 1.0)
  }

  /** Toggling twice restores the facing, with the zoom reset. */
  lemma ToggleTwice(c: Camera)
    ensures ToggleCamera(ToggleCamera(c)) == c.(zoom := 1.0)
  {
  }

  /** With hardware zoom, the zoom buttons never leave the capability range
      (the step and bounds are those the slider was set up with). */
  lemma HardwareZoomStaysInRange(c: Camera, accepted: bool)
    requires c.track.Some? && c.track.value.zoom.Some?
    requires var range := c.track.value.zoom.value;
             range.min <= range.max && range.min <= c.zoom <= range.max
    ensures var range := c.track.value.zoom.value;
            && range.min <= ZoomIn(c, accepted).zoom <= range.max
            && range.min <= ZoomOut(c, accepted).zoom <= range.max
  {
  }

  /** With software zoom, once the slider is set up (1..3, step 0.1), a zoom in
      [1, 3] stays in [1, 3] under both buttons. */
  lemma SoftwareZoomStaysInRange(c: Camera, accepted: bool)
    requires c.track.Some? && c.track.value.zoom.None?
    requires c.slider == Slider(Some(1.0), Some(3.0), Some(0.1), c.slider.value)
    requires 1.0 <= c.zoom <= 3.0
    ensures 1.0 <= ZoomIn(c, accepted).zoom <= 3.0
    ensures 1.0 <= ZoomOut(c, accepted).zoom <= 3.0
  {
  }

  /** A stream without hardware zoom sets the slider up for software zoom, so
      from then on a zoom in [1, 3] stays in [1, 3] under both buttons. */
  lemma SoftwareStreamKeepsZoomInRange(c: Camera, track: Track, accepted: bool)
    requires track.zoom.None? && 1.0 <= c.zoom <= 3.0
    ensures 1.0 <= ZoomIn(StreamReady(c, track), accepted).zoom <= 3.0
    ensures 1.0 <= ZoomOut(StreamReady(c, track), accepted).zoom <= 3.0
  {
    SoftwareZoomStaysInRange(StreamReady(c, track), accepted);
  }
}
