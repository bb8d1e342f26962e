/** Runs of input on the upload page: every reachable state keeps the zoom in
    [0.1, 5] and the stage in 0..2, and the strip is finalised exactly once,
    when the stage reaches 2. */
module UploadSession {
  import opened Wrappers
  import opened Geometry
  import opened UploadPage

  /** Every input the upload page reacts to. Finger distances are inputs
      (the page computes them with a square root). */
  datatype Input =
    | LoadPhoto(img: Image)
    | ZoomInButton
    | ZoomOutButton
    | WheelAt(p: Point, deltaY: real)
    | MouseDownAt(p: Point)
    | MouseMoveTo(p: Point)
    | MouseUp
    | TouchStartWith(count: nat, p: Point, distance: real)
    | TouchMoveWith(count: nat, p: Point, distance: real, mid: Point)
    | TouchEndWith(count: nat)
    | ReadyButton

  /** Finger distances are never negative. */
  predicate WellFormed(i: Input) {
    match i
    case TouchStartWith(_, _, d) => d >= 0.0
    case TouchMoveWith(_, _, d, _) => d >= 0.0
    case _ => true
  }

  function Step(e: Editor, i: Input): (r: Confirmation)
    requires Valid(e) && WellFormed(i)
    ensures Valid(r.next)
    ensures r.next.stage == e.stage || (r.next.stage == e.stage + 1 && e.stage < 2)
    ensures r.finalize <==> r.next.stage == 2 && e.stage < 2
  {
    match i
    case LoadPhoto(img) => Confirmation(LoadImage(e, img), false)
    case ZoomInButton => Confirmation(ZoomIn(e), false)
    case ZoomOutButton => Confirmation(ZoomOut(e), false)
    case WheelAt(p, deltaY) => Confirmation(Wheel(e, p, deltaY), false)
    case MouseDownAt(p) => Confirmation(MouseDown(e, p), false)
    case MouseMoveTo(p) => Confirmation(MouseMove(e, p), false)
    case MouseUp => Confirmation(EndDrag(e), false)
    case TouchStartWith(count, p, d) => Confirmation(TouchStart(e, count, p, d), false)
    case TouchMoveWith(count, p, d, mid) => Confirmation(TouchMove(e, count, p, d, mid), false)
    case TouchEndWith(count) => Confirmation(TouchEnd(e, count), false)
    case ReadyButton =>
      match Ready(e)
      case Confirmed(c) => c
      case HandedOff => Confirmation(e, false)
  }

  predicate AllWellFormed(ins: seq<Input>) {
    forall j :: 0 <= j < |ins| ==> WellFormed(ins[j])
  }

  /** The state after a run of inputs, and how many times the strip was
      finalised along the way. */
  datatype Outcome = Outcome(last: Editor, finalizations: nat)

  function Run(e: Editor, ins: seq<Input>): (r: Outcome)
    requires Valid(e) && AllWellFormed(ins)
    ensures Valid(r.last)
    ensures e.stage <= r.last.stage
    ensures r.finalizations == (if e.stage < 2 && r.last.stage == 2 then 1 else 0)
    decreases |ins|
  {
    if |ins| == 0 then Outcome(e, 0)
    else
      var c := Step(e, ins[0]);
      assert AllWellFormed(ins[1..]) by {
        forall j | 0 <= j < |ins| - 1
          ensures WellFormed(ins[1..][j])
        {
          assert ins[1..][j] == ins[j + 1];
        }
      }
      var rest := Run(c.next, ins[1..]);
      Outcome(rest.last, rest.finalizations + (if c.finalize then 1 else 0))
  }

  /** From page load, any run finalises the strip at most once, and exactly
      once if and only if both photos have been confirmed. */
  lemma FinalizedOnceAtStageTwo(ins: seq<Input>)
    requires AllWellFormed(ins)
    ensures Run(Initial, ins).finalizations <= 1
    ensures Run(Initial, ins).finalizations == 1 <==> Run(Initial, ins).last.stage == 2
  {
    assert Valid(Initial);
  }

  /** Loading two photos and pressing ready after each finalises the strip. */
  lemma TwoConfirmationsFinalize(img1: Image, img2: Image)
    ensures var r := Run(Initial, [LoadPhoto(img1), ReadyButton, LoadPhoto(img2), ReadyButton]);
            r.last.stage == 2 && r.finalizations == 1
  {
    var ins := [LoadPhoto(img1), ReadyButton, LoadPhoto(img2), ReadyButton];
    assert Valid(Initial);
    assert AllWellFormed(ins);
    var e1 := Step(Initial, ins[0]).next;
    var e2 := Step(e1, ins[1]).next;
    var e3 := Step(e2, ins[2]).next;
    var e4 := Step(e3, ins[3]).next;
    assert e4.stage == 2;
    assert Run(e4, ins[4..]).last == e4;
    assert Run(e3, ins[3..]).last == e4;
    assert Run(e2, ins[2..]).last == e4;
    assert Run(e1, ins[1..]).last == e4;
  }
}
