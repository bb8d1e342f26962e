/** The pinch-zoom frame of the upload page exactly as its handler computes
    it: the ratio `newDistance / lastTouchDistance` is taken with no check
    that a previous distance was recorded, so a zero distance yields
    Infinity or NaN, which `Math.min`/`Math.max` then pass on. The rest of the
    model uses the guarded `UploadPage.PinchZoom`. */
module UploadPinchAsWritten {
  import opened Geometry
  import opened UploadPage
  import opened UploadSession

  /** The JavaScript numbers this arithmetic can produce. */
  datatype JsNumber = Finite(value: real) | PositiveInfinity | NaN

  /** `a / b` on non-negative finger distances. */
  function JsDivide(a: real, b: real): (r: JsNumber)
    requires a >= 0.0 && b >= 0.0
    ensures b > 0.0 ==> r == Finite(a / b)
    ensures b == 0.0 ==> (a > 0.0 <==> r.PositiveInfinity?) && (a == 0.0 <==> r.NaN?)
  {
    if b != 0.0 then Finite(a / b)
    else if a == 0.0 then NaN
    else PositiveInfinity
  }

  /** `x * n` for a positive finite `x`. */
  function JsScale(x: real, n: JsNumber): JsNumber
    requires x > 0.0
  {
    match n
    case Finite(v) => Finite(x * v)
    case PositiveInfinity => PositiveInfinity
    case NaN => NaN
  }

  /** `Math.min(c, n)` for a finite `c`. */
  function JsMin(c: real, n: JsNumber): JsNumber {
    match n
    case Finite(v) => Finite(Min(c, v))
    case PositiveInfinity => Finite(c)
    case NaN => NaN
  }

  /** `Math.max(c, n)` for a finite `c`. */
  function JsMax(c: real, n: JsNumber): JsNumber {
    match n
    case Finite(v) => Finite(Max(c, v))
    case PositiveInfinity => PositiveInfinity
    case NaN => NaN
  }

  /** The new `imageScale` of one two-finger touch-move, as written. */
  function PinchScaleAsWritten(scale: real, lastDistance: real, newDistance: real): (r: JsNumber)
    requires scale > 0.0 && lastDistance >= 0.0 && newDistance >= 0.0
    ensures lastDistance > 0.0 ==>
              r == Finite(Clamp(MIN_SCALE, MAX_SCALE, scale * (newDistance / lastDistance)))
  {
    JsMax(MIN_SCALE, JsMin(MAX_SCALE, JsScale(scale, JsDivide(newDistance, lastDistance))))
  }

  /** With no distance recorded, any two-finger move snaps the zoom to its
      maximum, however little the fingers moved... */
  lemma UnrecordedPinchJumpsToMaximum(scale: real, newDistance: real)
    requires MIN_SCALE <= scale <= MAX_SCALE && newDistance > 0.0
    ensures PinchScaleAsWritten(scale, 0.0, newDistance) == Finite(MAX_SCALE)
  {
  }

  /** ...and with both fingers on one spot the zoom becomes NaN. */
  lemma UnrecordedStillPinchIsNaN(scale: real)
    requires MIN_SCALE <= scale <= MAX_SCALE
    ensures PinchScaleAsWritten(scale, 0.0, 0.0) == NaN
  {
  }

  /** The state is reachable: after a photo is loaded, three fingers landing
      together (a touch-start with three touches records nothing) and one of
      them lifting (two remain, so the distance is not reset) leave the page
      editing with no recorded distance; the next two-finger move divides by 0. */
  lemma UnrecordedPinchIsReachable(img: Image, p: Point)
    ensures var ins := [LoadPhoto(img), TouchStartWith(3, p, 0.0), TouchEndWith(2)];
            var e := Run(Initial, ins).last;
            Editing(e) && e.lastTouchDistance == 0.0 && e.scale == 1.0
  {
    var ins := [LoadPhoto(img), TouchStartWith(3, p, 0.0), TouchEndWith(2)];
    assert Valid(Initial) && AllWellFormed(ins);
    var e1 := Step(Initial, ins[0]).next;
    var e2 := Step(e1, ins[1]).next;
    var e3 := Step(e2, ins[2]).next;
    assert Editing(e3) && e3.lastTouchDistance == 0.0 && e3.scale == 1.0;
    assert Run(e3, ins[3..]).last == e3;
    assert Run(e2, ins[2..]).last == e3;
    assert Run(e1, ins[1..]).last == e3;
  }

  /** The guarded frame used by the model leaves the zoom unchanged in that
      situation and keeps it within [0.1, 5] in every situation. */
  lemma GuardedPinchKeepsScale(e: Editor, distance: real, mid: Point)
    requires Valid(e) && e.lastTouchDistance == 0.0 && distance >= 0.0
    ensures PinchZoom(e, distance, mid).scale == e.scale
    ensures PinchZoom(e, distance, mid).lastTouchDistance == distance
  {
  }
}
