/** Sequences of events on the decoration page, and the properties that
    relate several handlers: the selection invariant over any run, dragging,
    the two-finger gesture over many frames, and the keys and buttons that
    undo or alternate. */
module FinalSession {
  import opened Wrappers
  import opened Geometry
  import opened StickerList
  import opened FinalPage

  /** Every input the page reacts to. Clock readings, prompt answers and
      loaded image sizes are part of the event. */
  datatype Event =
    | Down(g: Gesture, now: int, confirmed: bool)
    | Move(g: Gesture)
    | Up(g: Gesture)
    | Key(key: string)
    | Press(button: Button, imgWidth: real, imgHeight: real)
    | ResetAll

  function Step(b: Board, e: Event, hit: HitTest): (r: Board)
    ensures Valid(b) ==> Valid(r)
  {
    match e
    case Down(g, now, confirmed) => PointerDown(b, g, now, confirmed, hit)
    case Move(g) => PointerMove(b, g)
    case Up(g) => PointerUp(b, g)
    case Key(key) => KeyDown(b, key)
    case Press(button, w, h) => PressButton(b, button, w, h)
    case ResetAll => Reset(b)
  }

  /** The board after a run of events; every reachable board satisfies the
      invariant, so the selection is always absent or a sticker on the board. */
  function Run(b: Board, es: seq<Event>, hit: HitTest): (r: Board)
    requires Valid(b)
    ensures Valid(r)
    ensures r.selected.None? || Member(r.stickers, r.selected.value)
    decreases |es|
  {
    if |es| == 0 then b else Run(Step(b, es[0], hit), es[1..], hit)
  }

  /** From page load, after any sequence of events, the selected sticker (if
      any) is on the board and identities are distinct. */
  lemma {:induction false} ReachableBoardsAreValid(es: seq<Event>, hit: HitTest)
    ensures Valid(Run(Initial, es, hit))
    ensures DistinctIds(Run(Initial, es, hit).stickers)
  {
    assert Valid(Initial);
  }

  /** Picking up the `i`th sticker moves it to the top of the paint order,
      selects it, marks it as dragging and remembers the offset from its
      corner to the pointer. */
  lemma PickUp(b: Board, i: nat, p0: Point)
    requires Valid(b) && i < |b.stickers|
    ensures var s := b.stickers[i];
            var b1 := PickUpAt(b, i, p0);
            var n := |b1.stickers|;
            && Valid(b1)
            && n == |b.stickers|
            && SelectedIndex(b1) == Some(n - 1)
            && b1.stickers[n - 1] == s.(dragging := true)
            && b1.selected == Some(s.id)
            && b1.dragOffset == Point(p0.x - s.x, p0.y - s.y)
  {
  }

  /** A sticker picked with the mouse and then dragged ends up displaced by
      exactly the pointer's movement, on top of the paint order. */
  lemma DragFollowsPointer(b: Board, p0: Point, p: Point, now: int, hit: HitTest)
    requires Valid(b) && TopHit(b.stickers, p0, hit).Some?
    ensures var i := TopHit(b.stickers, p0, hit).value;
            var b2 := PointerMove(PointerDown(b, Mouse(p0), now, false, hit), Mouse(p));
            var n := |b2.stickers|;
            && n == |b.stickers|
            && b2.selected == Some(b.stickers[i].id)
            && b2.stickers[n - 1].x == b.stickers[i].x + (p.x - p0.x)
            && b2.stickers[n - 1].y == b.stickers[i].y + (p.y - p0.y)
            && b2.stickers[n - 1] == b.stickers[i].(x := b2.stickers[n - 1].x,
                                                    y := b2.stickers[n - 1].y,
                                                    dragging := true)
  {
    var i := TopHit(b.stickers, p0, hit).value;
    var b1 := PickUpAt(b, i, p0);
    assert PointerDown(b, Mouse(p0), now, false, hit) == b1;
    PickUp(b, i, p0);
    assert PointerMove(b1, Mouse(p)) == DragMove(b1, p);
  }

  /** The board after a sequence of pointer moves. */
  function Moves(b: Board, gs: seq<Gesture>): (r: Board)
    requires Valid(b)
    ensures Valid(r)
    decreases |gs|
  {
    if |gs| == 0 then b else Moves(PointerMove(b, gs[0]), gs[1..])
  }

  predicate TwoFingerFrames(gs: seq<Gesture>) {
    forall j :: 0 <= j < |gs| ==> gs[j].Touch? && gs[j].count == 2
  }

  /** One frame of the gesture keeps the selection's index and the gesture's
      recorded distance and start size. */
  lemma PinchFrame(b: Board, g: Gesture)
    requires Valid(b) && b.selected.Some? && b.pinchDistance > 0.0
    requires g.Touch? && g.count == 2
    ensures var b1 := PointerMove(b, g);
            var k := SelectedIndex(b).value;
            && SelectedIndex(b1) == Some(k)
            && b1.pinchAngle == g.angle
            && b1 == b.(stickers := b1.stickers, pinchAngle := b1.pinchAngle)
            && b1.stickers[k].width == Scaled(b.pinchWidth, g.distance, b.pinchDistance)
            && b1.stickers[k].height == Scaled(b.pinchHeight, g.distance, b.pinchDistance)
            && b1.stickers[k].rotation == b.stickers[k].rotation + (g.angle - b.pinchAngle)
            && ChangesOnly(b.(pinchAngle := b1.pinchAngle), b1, k)
  {
    var b1 := PointerMove(b, g);
    assert Ids(b1.stickers) == Ids(b.stickers);
    IndexOfDependsOnIds(b1.stickers, b.stickers, b.selected.value);
  }

  /** Over any number of two-finger frames of one gesture, the selected
      sticker's size is the size at gesture start scaled by the ratio of the
      last to the initial finger distance, and its rotation has grown by the
      total angle turned since the gesture's reference angle: the per-frame
      increments add up. Nothing else on the board changes. */
  lemma {:induction false} PinchGesture(b: Board, gs: seq<Gesture>)
    requires Valid(b) && b.selected.Some? && b.pinchDistance > 0.0
    requires |gs| > 0 && TwoFingerFrames(gs)
    ensures var r := Moves(b, gs);
            var k := SelectedIndex(b).value;
            var last := gs[|gs| - 1];
            && SelectedIndex(r) == Some(k)
            && r.stickers[k].width == Scaled(b.pinchWidth, last.distance, b.pinchDistance)
            && r.stickers[k].height == Scaled(b.pinchHeight, last.distance, b.pinchDistance)
            && r.stickers[k].rotation == b.stickers[k].rotation + (last.angle - b.pinchAngle)
            && r.pinchAngle == last.angle
            && ChangesOnly(b.(pinchAngle := r.pinchAngle), r, k)
    decreases |gs|
  {
    var k := SelectedIndex(b).value;
    var b1 := PointerMove(b, gs[0]);
    PinchFrame(b, gs[0]);
    if |gs| > 1 {
      var rest := gs[1..];
      assert TwoFingerFrames(rest) by {
        forall j | 0 <= j < |rest|
          ensures rest[j].Touch? && rest[j].count == 2
        {
          assert rest[j] == gs[j + 1];
        }
      }
      assert rest[|rest| - 1] == gs[|gs| - 1];
      PinchGesture(b1, rest);
      var r := Moves(b1, rest);
      assert Moves(b, gs) == r;
      assert b1.pinchWidth == b.pinchWidth && b1.pinchHeight == b.pinchHeight;
      assert b1.pinchDistance == b.pinchDistance;
      RetargetedChangesCompose(b, b1, r, k);
    } else {
      assert Moves(b, gs) == Moves(b1, gs[1..]);
      assert Moves(b1, gs[1..]) == b1;
    }
  }

  /** Two steps that each change only the `k`th sticker and the gesture's
      reference angle together change only those. */
  lemma RetargetedChangesCompose(b: Board, b1: Board, r: Board, k: nat)
    requires ChangesOnly(b.(pinchAngle := b1.pinchAngle), b1, k)
    requires ChangesOnly(b1.(pinchAngle := r.pinchAngle), r, k)
    ensures ChangesOnly(b.(pinchAngle := r.pinchAngle), r, k)
  {
  }

  /** ArrowRight undoes ArrowLeft. */
  lemma ArrowsCancel(b: Board)
    requires Valid(b)
    ensures KeyDown(KeyDown(b, "ArrowLeft"), "ArrowRight") == b
  {
    var b1 := KeyDown(b, "ArrowLeft");
    if SelectedIndex(b).Some? {
      var k := SelectedIndex(b).value;
      assert Ids(b1.stickers) == Ids(b.stickers);
      IndexOfDependsOnIds(b1.stickers, b.stickers, b.selected.value);
      assert KeyDown(b1, "ArrowRight").stickers == b.stickers;
    }
  }

  /** Growing then shrinking does not restore the size: the net factor is 0.99. */
  lemma GrowThenShrink(b: Board)
    requires Valid(b) && b.selected.Some?
    ensures var k := SelectedIndex(b).value;
            var r := KeyDown(KeyDown(b, "+"), "-");
            && r.stickers[k].width == b.stickers[k].width * 0.99
            && r.stickers[k].height == b.stickers[k].height * 0.99
  {
    var b1 := KeyDown(b, "+");
    assert Ids(b1.stickers) == Ids(b.stickers);
    IndexOfDependsOnIds(b1.stickers, b.stickers, b.selected.value);
  }

  /** The seaweed button alternates between its two images: two presses add
      one of each, starting from the current index, and restore the index. */
  lemma SeaweedAlternates(b: Board, w1: real, h1: real, w2: real, h2: real)
    requires Valid(b)
    ensures var b1 := PressButton(b, SeaweedButton, w1, h1);
            var b2 := PressButton(b1, SeaweedButton, w2, h2);
            var n := |b.stickers|;
            && b2.seaweedIndex == b.seaweedIndex
            && b2.stickers[n].asset == (if b.seaweedIndex == 0 then Seaweed1 else Seaweed2)
            && b2.stickers[n + 1].asset == (if b.seaweedIndex == 0 then Seaweed2 else Seaweed1)
  {
  }

  /** The bubble button alternates in the same way. */
  lemma BubbleAlternates(b: Board, w1: real, h1: real, w2: real, h2: real)
    requires Valid(b)
    ensures var b1 := PressButton(b, BubbleButton, w1, h1);
            var b2 := PressButton(b1, BubbleButton, w2, h2);
            var n := |b.stickers|;
            && b2.bubbleIndex == b.bubbleIndex
            && b2.stickers[n].asset == (if b.bubbleIndex == 0 then Bubble1 else Bubble2)
            && b2.stickers[n + 1].asset == (if b.bubbleIndex == 0 then Bubble2 else Bubble1)
  {
  }
}
