/** The upload page: one uploaded photo at a time is positioned (dragged) and
    zoomed inside the active half of the strip, then confirmed; the stage
    counter runs 0 (top half), 1 (bottom half), 2 (done). Drawing on the
    canvas is left out: only the editing state is modelled. */
module UploadPage {
  import opened Wrappers
  import opened Geometry

  const MIN_SCALE: real := 0.1
  const MAX_SCALE: real := 5.0
  /** Factor of one zoom-button press and of one wheel notch. */
  const BUTTON_ZOOM: real := 1.2
  const WHEEL_ZOOM: real := 1.1

  /** An uploaded image, by its natural size. */
  datatype Image = Image(width: real, height: real)

  /** The editing state. `pos` is the image's top-left corner relative to the
      active half, `scale` its zoom, `dragStart` the pointer's offset from
      `pos` when the drag began, `lastTouchDistance` the finger distance of the
      previous pinch frame (0 when none was recorded). */
  datatype Editor = Editor(
    stage: nat,
    image: Option<Image>,
    pos: Point,
    scale: real,
    dragging: bool,
    dragStart: Point,
    lastTouchDistance: real)

  /** The state when the page loads. */
  const Initial: Editor := Editor(0, None, Point(0.0, 0.0), 1.0, false, Point(0.0, 0.0), 0.0)

  /** The state invariant: the stage never passes 2, the zoom stays within its
      limits, and a recorded finger distance is a distance. */
  predicate Valid(e: Editor) {
    && e.stage <= 2
    && MIN_SCALE <= e.scale <= MAX_SCALE
    && e.lastTouchDistance >= 0.0
  }

  /** Canvas y of the active half: the top half at stage 0, the bottom otherwise. */
  function YOffset(stage: nat): (r: real)
    ensures stage == 0 ==> r == 0.0
    ensures stage != 0 ==> r == HALF
  {
    if stage == 0 then 0.0 else HALF
  }

  /** Does canvas y fall inside the active half? */
  predicate InActiveHalf(stage: nat, y: real) {
    YOffset(stage) <= y < YOffset(stage) + HALF
  }

  /** Input on the canvas is only handled while an image is being edited and
      the strip is not finished. */
  predicate Editing(e: Editor) {
    e.image.Some? && e.stage < 2
  }

  // ------------------------------------------------------------ placement

  /** `drawPhoto` (its state part): a new image, or any image when none is
      being edited, is shown at its natural size centred in the half. */
  function DrawPhoto(e: Editor, img: Image, init: bool): (r: Editor)
    ensures init || e.image.None? ==>
              && r.image == Some(img)
              && r.scale == 1.0
              && r.pos.x + img.width / 2.0 == WIDTH / 2.0
              && r.pos.y + img.height / 2.0 == HALF / 2.0
              && r == e.(image := r.image, scale := r.scale, pos := r.pos)
    ensures !init && e.image.Some? ==> r == e
    ensures Valid(e) ==> Valid(r)
  {
    if init || e.image.None? then
      e.(image := Some(img), scale := 1.0,
         pos := Point((WIDTH - img.width) / 2.0, (HALF - img.height) / 2.0))
    else e
  }

  /** A file was chosen and its image has loaded: it replaces any image being
      edited, at its natural size, centred in the active half; the stage, the
      drag state and the recorded finger distance are untouched. */
  function LoadImage(e: Editor, img: Image): (r: Editor)
    ensures r.image == Some(img) && r.scale == 1.0
    ensures r.pos.x + img.width / 2.0 == WIDTH / 2.0 && r.pos.y + img.height / 2.0 == HALF / 2.0
    ensures r == e.(image := r.image, scale := r.scale, pos := r.pos)
    ensures Valid(e) ==> Valid(r)
  {
    DrawPhoto(e, img, true)
  }

  // ----------------------------------------------------------------- zoom

  /** The image-space coordinate under canvas coordinate `a` along one axis. */
  function ImageCoord(a: real, pos: real, scale: real): real
    requires scale != 0.0
  {
    (a - pos) / scale
  }

  /** Zoom to `newScale` keeping the image point under `anchor` (coordinates
      relative to the active half) where it is. */
  function ZoomToward(e: Editor, anchor: Point, newScale: real): (r: Editor)
    requires e.scale > 0.0 && newScale > 0.0
    ensures r.scale == newScale
    ensures ImageCoord(anchor.x, r.pos.x, r.scale) == ImageCoord(anchor.x, e.pos.x, e.scale)
    ensures ImageCoord(anchor.y, r.pos.y, r.scale) == ImageCoord(anchor.y, e.pos.y, e.scale)
    ensures r == e.(pos := r.pos, scale := r.scale)
  {
    var ratio := newScale / e.scale;
    var r := e.(pos := Point(anchor.x - (anchor.x - e.pos.x) * ratio,
                             anchor.y - (anchor.y - e.pos.y) * ratio),
                scale := newScale);
    AnchorFixed(anchor.x, e.pos.x, e.scale, newScale);
    AnchorFixed(anchor.y, e.pos.y, e.scale, newScale);
    r
  }

  lemma AnchorFixed(a: real, p: real, s: real, n: real)
    requires s > 0.0 && n > 0.0
    ensures ImageCoord(a, a - (a - p) * (n / s), n) == ImageCoord(a, p, s)
  {
    var d := a - p;
    assert a - (a - d * (n / s)) == d * (n / s);
    assert d * (n / s) / n == d / s;
  }

  /** The anchor of the zoom buttons: the centre of the half. */
  const HalfCentre: Point := Point(WIDTH / 2.0, HALF / 2.0)

  /** The zoom-in button: scale by 1.2 up to 5, toward the centre of the half. */
  function ZoomIn(e: Editor): (r: Editor)
    requires e.scale > 0.0
    ensures e.image.None? ==> r == e
    ensures e.image.Some? ==>
              && r.scale == Min(e.scale * BUTTON_ZOOM, MAX_SCALE)
              && ImageCoord(HalfCentre.x, r.pos.x, r.scale) == ImageCoord(HalfCentre.x, e.pos.x, e.scale)
              && ImageCoord(HalfCentre.y, r.pos.y, r.scale) == ImageCoord(HalfCentre.y, e.pos.y, e.scale)
    ensures r == e.(pos := r.pos, scale := r.scale)
    ensures Valid(e) ==> Valid(r) && r.scale >= e.scale
  {
    if e.image.None? then e
    else ZoomToward(e, HalfCentre, Min(e.scale * BUTTON_ZOOM, MAX_SCALE))
  }

  /** The zoom-out button: divide the scale by 1.2 down to 0.1, toward the
      centre of the half. */
  function ZoomOut(e: Editor): (r: Editor)
    requires e.scale > 0.0
    ensures e.image.None? ==> r == e
    ensures e.image.Some? ==>
              && r.scale == Max(e.scale / BUTTON_ZOOM, MIN_SCALE)
              && ImageCoord(HalfCentre.x, r.pos.x, r.scale) == ImageCoord(HalfCentre.x, e.pos.x, e.scale)
              && ImageCoord(HalfCentre.y, r.pos.y, r.scale) == ImageCoord(HalfCentre.y, e.pos.y, e.scale)
    ensures r == e.(pos := r.pos, scale := r.scale)
    ensures Valid(e) ==> Valid(r) && r.scale <= e.scale
  {
    if e.image.None? then e
    else ZoomToward(e, HalfCentre, Max(e.scale / BUTTON_ZOOM, MIN_SCALE))
  }

  /** The mouse wheel at canvas point `p`: inside the active half, one notch up
      (`deltaY < 0`) zooms in by 1.1, otherwise out by 1.1, toward the pointer. */
  function Wheel(e: Editor, p: Point, deltaY: real): (r: Editor)
    requires e.scale > 0.0
    ensures !Editing(e) || !InActiveHalf(e.stage, p.y) ==> r == e
    ensures Editing(e) && InActiveHalf(e.stage, p.y) ==>
              var anchor := Point(p.x, p.y - YOffset(e.stage));
              && r.scale == (if deltaY < 0.0 then Min(e.scale * WHEEL_ZOOM, MAX_SCALE)
                             else Max(e.scale / WHEEL_ZOOM, MIN_SCALE))
              && ImageCoord(anchor.x, r.pos.x, r.scale) == ImageCoord(anchor.x, e.pos.x, e.scale)
              && ImageCoord(anchor.y, r.pos.y, r.scale) == ImageCoord(anchor.y, e.pos.y, e.scale)
    ensures r == e.(pos := r.pos, scale := r.scale)
    ensures Valid(e) ==> Valid(r)
  {
    if !Editing(e) then e
    else if InActiveHalf(e.stage, p.y) then
      var newScale := if deltaY < 0.0 then Min(e.scale * WHEEL_ZOOM, MAX_SCALE)
                      else Max(e.scale / WHEEL_ZOOM, MIN_SCALE);
      ZoomToward(e, Point(p.x, p.y - YOffset(e.stage)), newScale)
    else e
  }

  /** The scale a two-finger frame asks for before clamping: the scale times
      the ratio of the new to the previous finger distance. */
  function PinchTarget(scale: real, distance: real, previous: real): real
    requires previous != 0.0
  {
    scale * (distance / previous)
  }

  /** One two-finger frame: with a previous distance recorded, the scale is
      multiplied by the ratio of the new to the previous finger distance and
      clamped to [0.1, 5], toward the fingers' midpoint `mid`; the new distance
      is recorded. Without a previous distance (0) only the distance is
      recorded (see `PinchScaleAsWritten` for the unguarded division). */
  function PinchZoom(e: Editor, distance: real, mid: Point): (r: Editor)
    requires e.scale > 0.0 && e.lastTouchDistance >= 0.0 && distance >= 0.0
    ensures r == e.(pos := r.pos, scale := r.scale, lastTouchDistance := distance)
    ensures e.lastTouchDistance == 0.0 ==> r == e.(lastTouchDistance := distance)
    ensures e.lastTouchDistance > 0.0 ==>
              var anchor := Point(mid.x, mid.y - YOffset(e.stage));
              var t := PinchTarget(e.scale, distance, e.lastTouchDistance);
              && MIN_SCALE <= r.scale <= MAX_SCALE
              && (MIN_SCALE <= t <= MAX_SCALE ==> r.scale == t)
              && (t < MIN_SCALE ==> r.scale == MIN_SCALE)
              && (MAX_SCALE < t ==> r.scale == MAX_SCALE)
              && ImageCoord(anchor.x, r.pos.x, r.scale) == ImageCoord(anchor.x, e.pos.x, e.scale)
              && ImageCoord(anchor.y, r.pos.y, r.scale) == ImageCoord(anchor.y, e.pos.y, e.scale)
    ensures e.lastTouchDistance > 0.0 && distance == e.lastTouchDistance && Valid(e) ==> r.scale == e.scale
    ensures Valid(e) ==> Valid(r)
  {
    if e.lastTouchDistance > 0.0 then
      var newScale := Clamp(MIN_SCALE, MAX_SCALE, PinchTarget(e.scale, distance, e.lastTouchDistance));
      ZoomToward(e, Point(mid.x, mid.y - YOffset(e.stage)), newScale).(lastTouchDistance := distance)
    else e.(lastTouchDistance := distance)
  }

  // ----------------------------------------------------------------- drag

  /** `startDrag` at coordinates relative to the active half. */
  function StartDrag(e: Editor, x: real, y: real): (r: Editor)
    ensures r.dragging
    ensures r.dragStart.x + e.pos.x == x && r.dragStart.y + e.pos.y == y
    ensures r == e.(dragging := true, dragStart := r.dragStart)
    ensures Valid(e) ==> Valid(r)
  {
    e.(dragging := true, dragStart := Point(x - e.pos.x, y - e.pos.y))
  }

  /** `doDrag`: while dragging an image, its corner follows the pointer. */
  function DoDrag(e: Editor, x: real, y: real): (r: Editor)
    ensures !e.dragging || e.image.None? ==> r == e
    ensures e.dragging && e.image.Some? ==>
              r == e.(pos := Point(x - e.dragStart.x, y - e.dragStart.y))
    ensures Valid(e) ==> Valid(r)
  {
    if !e.dragging || e.image.None? then e
    else e.(pos := Point(x - e.dragStart.x, y - e.dragStart.y))
  }

  /** `endDrag`: mouse-up, mouse-leave and the last finger lifting. */
  function EndDrag(e: Editor): (r: Editor)
    ensures !r.dragging && r == e.(dragging := false)
    ensures Valid(e) ==> Valid(r)
  {
    e.(dragging := false)
  }

  /** After `startDrag(x0, y0)` and `doDrag(x, y)` the image has moved by
      exactly the pointer's displacement. */
  lemma DragMovesByPointerDisplacement(e: Editor, x0: real, y0: real, x: real, y: real)
    requires e.image.Some?
    ensures DoDrag(StartDrag(e, x0, y0), x, y).pos == Point(e.pos.x + (x - x0), e.pos.y + (y - y0))
  {
  }

  // -------------------------------------------------------- canvas events

  /** Mouse-down at canvas point `p` starts a drag inside the active half. */
  function MouseDown(e: Editor, p: Point): (r: Editor)
    ensures !Editing(e) || !InActiveHalf(e.stage, p.y) ==> r == e
    ensures Editing(e) && InActiveHalf(e.stage, p.y) ==> r == StartDrag(e, p.x, p.y - YOffset(e.stage))
    ensures Valid(e) ==> Valid(r)
  {
    if Editing(e) && InActiveHalf(e.stage, p.y) then StartDrag(e, p.x, p.y - YOffset(e.stage)) else e
  }

  /** Mouse-move at canvas point `p`: drags, wherever the pointer is. */
  function MouseMove(e: Editor, p: Point): (r: Editor)
    ensures !Editing(e) || !e.dragging ==> r == e
    ensures Editing(e) && e.dragging ==> r == DoDrag(e, p.x, p.y - YOffset(e.stage))
    ensures Valid(e) ==> Valid(r)
  {
    if !Editing(e) || !e.dragging then e else DoDrag(e, p.x, p.y - YOffset(e.stage))
  }

  /** Touch-start with `count` fingers, the first at canvas point `p`, the
      first two `distance` apart. */
  function TouchStart(e: Editor, count: nat, p: Point, distance: real): (r: Editor)
    ensures !Editing(e) ==> r == e
    ensures Editing(e) && count == 2 ==> r == e.(lastTouchDistance := distance, dragging := false)
    ensures Editing(e) && count == 1 && InActiveHalf(e.stage, p.y) ==>
              r == StartDrag(e, p.x, p.y - YOffset(e.stage))
    ensures Editing(e) && count == 1 && !InActiveHalf(e.stage, p.y) ==> r == e
    ensures count != 1 && count != 2 ==> r == e
    ensures Valid(e) && distance >= 0.0 ==> Valid(r)
  {
    if !Editing(e) then e
    else if count == 2 then e.(lastTouchDistance := distance, dragging := false)
    else if count == 1 && InActiveHalf(e.stage, p.y) then StartDrag(e, p.x, p.y - YOffset(e.stage))
    else e
  }

  /** Touch-move: two fingers pinch-zoom toward their midpoint `mid`; one
      finger drags. */
  function TouchMove(e: Editor, count: nat, p: Point, distance: real, mid: Point): (r: Editor)
    requires Valid(e) && distance >= 0.0
    ensures Valid(r)
    ensures !Editing(e) ==> r == e
    ensures Editing(e) && count == 2 ==> r == PinchZoom(e, distance, mid)
    ensures Editing(e) && count == 1 ==> r == DoDrag(e, p.x, p.y - YOffset(e.stage))
    ensures count != 1 && count != 2 ==> r == e
  {
    if !Editing(e) then e
    else if count == 2 then PinchZoom(e, distance, mid)
    else if count == 1 && e.dragging then DoDrag(e, p.x, p.y - YOffset(e.stage))
    else e
  }

  /** Touch-end with `count` fingers still down: fewer than two forgets the
      pinch distance, none ends the drag. */
  function TouchEnd(e: Editor, count: nat): (r: Editor)
    ensures count < 2 ==> r.lastTouchDistance == 0.0
    ensures count >= 2 ==> r == e
    ensures count == 0 ==> !r.dragging
    ensures count == 1 ==> r.dragging == e.dragging
    ensures r == e.(lastTouchDistance := r.lastTouchDistance, dragging := r.dragging)
    ensures Valid(e) ==> Valid(r)
  {
    var e1 := if count < 2 then e.(lastTouchDistance := 0.0) else e;
    if count == 0 then EndDrag(e1) else e1
  }

  // ----------------------------------------------------------- confirming

  /** The result of confirming a photo: the next state and whether the strip
      was finalised (frame drawn over both halves). */
  datatype Confirmation = Confirmation(next: Editor, finalize: bool)

  /** `confirmCurrentPhoto`: with an image, the stage advances by one and the
      per-photo state resets; finalisation happens when the stage reaches 2.
      Without an image nothing happens. */
  function ConfirmCurrentPhoto(e: Editor): (r: Confirmation)
    ensures e.image.None? ==> r == Confirmation(e, false)
    ensures e.image.Some? ==>
              && r.next.stage == e.stage + 1
              && r.next.image.None?
              && r.next.pos == Point(0.0, 0.0)
              && r.next.scale == 1.0
              && r.next == e.(stage := r.next.stage, image := None, pos := r.next.pos, scale := 1.0)
              && (r.finalize <==> r.next.stage == 2)
  {
    if e.image.None? then Confirmation(e, false)
    else
      var next := e.(stage := e.stage + 1, image := None, pos := Point(0.0, 0.0), scale := 1.0);
      Confirmation(next, next.stage == 2)
  }

  /** The ready button: while a photo is being edited it confirms it; otherwise
      it hands the canvas over to the decoration page (storage and navigation
      are not modelled). */
  datatype ReadyOutcome = Confirmed(confirmation: Confirmation) | HandedOff

  function Ready(e: Editor): (r: ReadyOutcome)
    ensures Editing(e) <==> r.Confirmed?
    ensures r.Confirmed? ==> r.confirmation == ConfirmCurrentPhoto(e)
    ensures Valid(e) && r.Confirmed? ==> Valid(r.confirmation.next)
  {
    if Editing(e) then Confirmed(ConfirmCurrentPhoto(e)) else HandedOff
  }

  /** At stage 2 the guarded canvas handlers (mouse-down, mouse-move, wheel,
      touch-start and touch-move) change nothing. Mouse-up and touch-end have
      no stage guard and still reset the drag flag and the finger distance. */
  lemma FinishedStripIgnoresInput(e: Editor, p: Point, deltaY: real, count: nat, distance: real, mid: Point)
    requires Valid(e) && e.stage >= 2 && distance >= 0.0
    ensures MouseDown(e, p) == e && MouseMove(e, p) == e && Wheel(e, p, deltaY) == e
    ensures TouchStart(e, count, p, distance) == e && TouchMove(e, count, p, distance, mid) == e
  {
  }

  /** Zooming out undoes zooming in while the zoom-in was not clamped, position
      included; and the other way round. */
  lemma ZoomOutUndoesZoomIn(e: Editor)
    requires Valid(e) && e.image.Some? && e.scale * BUTTON_ZOOM <= MAX_SCALE
    ensures ZoomOut(ZoomIn(e)) == e
  {
    var e1 := ZoomIn(e);
    assert e1.scale == e.scale * 1.2;
    assert e1.scale / 1.2 == e.scale;
    ZoomTowardInverse(e, HalfCentre, e1.scale);
  }

  lemma ZoomInUndoesZoomOut(e: Editor)
    requires Valid(e) && e.image.Some? && e.scale / BUTTON_ZOOM >= MIN_SCALE
    ensures ZoomIn(ZoomOut(e)) == e
  {
    var e1 := ZoomOut(e);
    assert e1.scale == e.scale / 1.2;
    assert e1.scale * 1.2 == e.scale;
    ZoomTowardInverse(e, HalfCentre, e1.scale);
  }

  /** Zooming to a scale and back about the same anchor restores the state. */
  lemma ZoomTowardInverse(e: Editor, anchor: Point, n: real)
    requires e.scale > 0.0 && n > 0.0
    ensures ZoomToward(ZoomToward(e, anchor, n), anchor, e.scale) == e
  {
    var e1 := ZoomToward(e, anchor, n);
    var e2 := ZoomToward(e1, anchor, e.scale);
    assert e2.pos.x == e.pos.x by {
      Unzoom(anchor.x, e.pos.x, e.scale, n);
    }
    assert e2.pos.y == e.pos.y by {
      Unzoom(anchor.y, e.pos.y, e.scale, n);
    }
  }

  lemma Unzoom(a: real, p: real, s: real, n: real)
    requires s > 0.0 && n > 0.0
    ensures var p1 := a - (a - p) * (n / s);
            a - (a - p1) * (s / n) == p
  {
    var d := a - p;
    assert a - (a - d * (n / s)) == d * (n / s);
    assert (n / s) * (s / n) == 1.0;
    assert d * (n / s) * (s / n) == d;
  }
}
