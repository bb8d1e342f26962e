/** The decoration page: the sticker board and the event handlers that
    change it. Each handler is a pure transition from one board to the next.
    Rendering is left out; every handler's redraw has no effect on the board. */
module FinalPage {
  import opened Wrappers
  import opened Geometry
  import opened StickerList

  /** Two single-finger taps closer together than this (in ms) are a double tap. */
  const DOUBLE_TAP_MS: int := 300
  /** Degrees an arrow key turns the selected sticker. */
  const ROTATE_STEP: real := 5.0
  /** Factors the `+` and `-` keys scale the selected sticker by. */
  const GROW: real := 1.1
  const SHRINK: real := 0.9

  /** The page's sticker state. `pinchDistance` is 0 while no two-finger
      gesture is in progress; `pinchAngle` is the finger angle of the previous
      gesture frame; `pinchWidth`/`pinchHeight` are the selected sticker's size
      when the gesture began. `nextId` hands out sticker identities. */
  datatype Board = Board(
    stickers: seq<Sticker>,
    selected: Option<nat>,
    dragOffset: Point,
    pinchDistance: real,
    pinchAngle: real,
    pinchWidth: real,
    pinchHeight: real,
    lastTapTime: int,
    seaweedIndex: nat,
    bubbleIndex: nat,
    nextId: nat)

  /** The board when the page loads. */
  const Initial: Board :=
    Board([], None, Point(0.0, 0.0), 0.0, 0.0, 0.0, 0.0, 0, 0, 0, 0)

  /** The board invariant: sticker identities are distinct and fresh ids stay
      fresh, the selection is absent or a sticker on the board, and the
      seaweed/bubble indices address their two-element image lists. */
  predicate Valid(b: Board) {
    && DistinctIds(b.stickers)
    && IdsBelow(b.stickers, b.nextId)
    && (b.selected.Some? ==> Member(b.stickers, b.selected.value))
    && b.seaweedIndex < 2
    && b.bubbleIndex < 2
  }

  /** A pointer event. `pos` is the pointer (for touch, the first finger) in
      canvas coordinates; `distance` and `angle` are the distance and the angle
      in degrees between the first two fingers, computed by the page with
      square root and arctangent and supplied here as inputs. */
  datatype Gesture =
    | Mouse(pos: Point)
    | Touch(count: nat, pos: Point, distance: real, angle: real)

  datatype Button = FishButton | OctopusButton | SeaweedButton | AxolotlButton | BubbleButton

  /** Index of the selected sticker in the list, if there is one. */
  function SelectedIndex(b: Board): (r: Option<nat>)
    ensures r.Some? ==> b.selected.Some? && r.value < |b.stickers|
                        && b.stickers[r.value].id == b.selected.value
    ensures Valid(b) && b.selected.Some? ==> r.Some?
  {
    match b.selected
    case None => None
    case Some(id) => IndexOf(b.stickers, id)
  }

  // ---------------------------------------------------------------- adding

  /** A sticker image has loaded with natural size `imgWidth` x `imgHeight`:
      it is added on top of the others, centred on the canvas at two thirds of
      its natural size, unrotated and not dragging, and becomes the selection. */
  function AddSticker(b: Board, asset: Asset, imgWidth: real, imgHeight: real): (r: Board)
    ensures |r.stickers| == |b.stickers| + 1
    ensures r.stickers[..|b.stickers|] == b.stickers
    ensures var s := r.stickers[|b.stickers|];
            && s.asset == asset
            && s.x + s.width / 2.0 == WIDTH / 2.0
            && s.y + s.height / 2.0 == HEIGHT / 2.0
            && s.width * 3.0 == imgWidth * 2.0
            && s.height * 3.0 == imgHeight * 2.0
            && s.rotation == 0.0
            && !s.dragging
            && r.selected == Some(s.id)
            && (Valid(b) ==> !Member(b.stickers, s.id))
    ensures r == b.(stickers := r.stickers, selected := r.selected, nextId := r.nextId)
    ensures Valid(b) ==> Valid(r)
  {
    var s := Sticker(b.nextId, asset,
                     WIDTH / 2.0 - imgWidth / 3.0, HEIGHT / 2.0 - imgHeight / 3.0,
                     imgWidth / 1.5, imgHeight / 1.5, 0.0, false);
    var r := b.(stickers := b.stickers + [s], selected := Some(s.id), nextId := b.nextId + 1);
    assert r.stickers[|b.stickers|] == s;
    r
  }

  /** The sticker buttons. Seaweed and bubble alternate between their two
      images; the index advances on every press. */
  function PressButton(b: Board, button: Button, imgWidth: real, imgHeight: real): (r: Board)
    ensures Valid(b) ==> Valid(r)
  {
    match button
    case FishButton => AddSticker(b, Fish, imgWidth, imgHeight)
    case OctopusButton => AddSticker(b, Octopus, imgWidth, imgHeight)
    case AxolotlButton => AddSticker(b, Axolotl, imgWidth, imgHeight)
    case SeaweedButton =>
      var asset := if b.seaweedIndex == 0 then Seaweed1 else Seaweed2;
      AddSticker(b, asset, imgWidth, imgHeight).(seaweedIndex := (b.seaweedIndex + 1) % 2)
    case BubbleButton =>
      var asset := if b.bubbleIndex == 0 then Bubble1 else Bubble2;
      AddSticker(b, asset, imgWidth, imgHeight).(bubbleIndex := (b.bubbleIndex + 1) % 2)
  }

  // --------------------------------------------------------- pointer down

  /** The second tap of a double tap: the topmost sticker under the finger is
      deleted if the user confirms, and the selection is cleared whether or
      not that sticker was the selected one. The tap timer restarts. */
  function DoubleTapDelete(b: Board, p: Point, confirmed: bool, hit: HitTest): (r: Board)
    ensures r.lastTapTime == 0
    ensures r == b.(stickers := r.stickers, selected := r.selected, lastTapTime := 0)
    ensures match TopHit(b.stickers, p, hit)
            case Some(i) =>
              if confirmed then r.stickers == RemoveAt(b.stickers, i) && r.selected.None?
              else r.stickers == b.stickers && r.selected == b.selected
            case None => r.stickers == b.stickers && r.selected == b.selected
    ensures Valid(b) ==> Valid(r)
  {
    var b1 :=
      match TopHit(b.stickers, p, hit)
      case Some(i) =>
        if confirmed then
          assert Valid(b) ==> Valid(b.(stickers := RemoveAt(b.stickers, i), selected := None)) by {
            if Valid(b) { RemoveAtMembers(b.stickers, i, b.nextId); }
          }
          b.(stickers := RemoveAt(b.stickers, i), selected := None)
        else b
      case None => b;
    b1.(lastTapTime := 0)
  }

  /** Selecting with one finger or the mouse. A hit selects the topmost sticker
      under the pointer, marks it dragging, records the pointer's offset from
      its corner and brings it to the top of the paint order. A miss clears the
      selection and leaves the list alone. */
  function SelectAt(b: Board, p: Point, hit: HitTest): (r: Board)
    ensures |r.stickers| == |b.stickers|
    ensures r.nextId == b.nextId && r.lastTapTime == b.lastTapTime
    ensures match TopHit(b.stickers, p, hit)
            case Some(i) =>
              && r.stickers[|r.stickers| - 1] == b.stickers[i].(dragging := true)
              && r.stickers[..|r.stickers| - 1] == RemoveAt(b.stickers, i)
              && r.selected == Some(b.stickers[i].id)
              && r.dragOffset == Point(p.x - b.stickers[i].x, p.y - b.stickers[i].y)
              && r == b.(stickers := r.stickers, selected := r.selected, dragOffset := r.dragOffset)
            case None => r == b.(selected := None)
    ensures Valid(b) ==> Valid(r)
    ensures Valid(b) && TopHit(b.stickers, p, hit).Some? ==>
              SelectedIndex(r) == Some(|r.stickers| - 1)
  {
    match TopHit(b.stickers, p, hit)
    case Some(i) => PickUpAt(b, i, p)
    case None => b.(selected := None)
  }

  /** Selecting never adds or loses a sticker: the ids are permuted. */
  lemma SelectAtPermutes(b: Board, p: Point, hit: HitTest)
    ensures multiset(Ids(SelectAt(b, p, hit).stickers)) == multiset(Ids(b.stickers))
  {
    match TopHit(b.stickers, p, hit)
    case Some(i) => BringToFrontPermutes(b.stickers, i, b.stickers[i].(dragging := true));
    case None =>
  }

  /** The hit branch of `SelectAt`: the `i`th sticker is picked up. */
  function PickUpAt(b: Board, i: nat, p: Point): (r: Board)
    requires i < |b.stickers|
    ensures r == b.(stickers := BringToFront(b.stickers, i, b.stickers[i].(dragging := true)),
                    selected := Some(b.stickers[i].id),
                    dragOffset := Point(p.x - b.stickers[i].x, p.y - b.stickers[i].y))
    ensures Valid(b) ==> Valid(r) && SelectedIndex(r) == Some(|r.stickers| - 1)
  {
    var s := b.stickers[i].(dragging := true);
    var front := BringToFront(b.stickers, i, s);
    var r := b.(stickers := front,
                selected := Some(s.id),
                dragOffset := Point(p.x - s.x, p.y - s.y));
    assert Valid(b) ==> Valid(r) && SelectedIndex(r) == Some(|r.stickers| - 1) by {
      if Valid(b) {
        BringToFrontDistinct(b.stickers, i, s, b.nextId);
        assert front[|front| - 1].id == s.id;
      }
    }
    r
  }

  /** Two fingers down while a sticker is selected: the gesture start records
      the finger distance and angle and the selected sticker's size. */
  function PinchStart(b: Board, distance: real, angle: real): (r: Board)
    ensures r.stickers == b.stickers && r.selected == b.selected
    ensures r.pinchDistance == distance && r.pinchAngle == angle
    ensures r == b.(pinchDistance := distance, pinchAngle := angle,
                    pinchWidth := r.pinchWidth, pinchHeight := r.pinchHeight)
    ensures match SelectedIndex(b)
            case Some(k) => r.pinchWidth == b.stickers[k].width && r.pinchHeight == b.stickers[k].height
            case None => r.pinchWidth == b.pinchWidth && r.pinchHeight == b.pinchHeight
    ensures Valid(b) ==> Valid(r)
  {
    var b1 := b.(pinchDistance := distance, pinchAngle := angle);
    match SelectedIndex(b)
    case Some(k) => b1.(pinchWidth := b.stickers[k].width, pinchHeight := b.stickers[k].height)
    case None => b1
  }

  /** Is this pointer-down the second single-finger tap within the window? */
  predicate IsDoubleTap(b: Board, g: Gesture, now: int) {
    g.Touch? && g.count == 1 && now - b.lastTapTime < DOUBLE_TAP_MS
  }

  /** `pointerDown`: mouse-down and touch-start. `now` is the clock in ms and
      `confirmed` the answer to the delete prompt. */
  function PointerDown(b: Board, g: Gesture, now: int, confirmed: bool, hit: HitTest): (r: Board)
    ensures IsDoubleTap(b, g, now) ==> r == DoubleTapDelete(b, g.pos, confirmed, hit)
    ensures g.Touch? && g.count == 1 && !IsDoubleTap(b, g, now) ==>
              r == SelectAt(b.(lastTapTime := now), g.pos, hit)
    ensures g.Mouse? ==> r == SelectAt(b, g.pos, hit)
    ensures g.Touch? && g.count == 2 && b.selected.Some? ==> r == PinchStart(b, g.distance, g.angle)
    ensures g.Touch? && g.count != 1 && (g.count != 2 || b.selected.None?) ==> r == b
    ensures Valid(b) ==> Valid(r)
  {
    if IsDoubleTap(b, g, now) then
      DoubleTapDelete(b, g.pos, confirmed, hit)
    else
      var b1 := if g.Touch? && g.count == 1 then b.(lastTapTime := now) else b;
      if g.Touch? && g.count == 2 && b1.selected.Some? then PinchStart(b1, g.distance, g.angle)
      else if g.Mouse? || g.count == 1 then SelectAt(b1, g.pos, hit)
      else b1
  }

  // --------------------------------------------------------- pointer move

  /** A side that measured `size` when the gesture started at finger distance
      `start`, scaled by the ratio of the current finger distance to `start`. */
  function Scaled(size: real, distance: real, start: real): real
    requires start != 0.0
  {
    size * (distance / start)
  }

  /** One frame of the two-finger gesture: the selected sticker's size becomes
      the size at gesture start times the ratio of the current to the initial
      finger distance, and its rotation grows by the angle turned since the
      previous frame, which becomes the new reference angle. Without a recorded
      distance nothing changes. */
  function PinchMove(b: Board, distance: real, angle: real): (r: Board)
    ensures r.selected == b.selected && |r.stickers| == |b.stickers|
    ensures b.pinchDistance <= 0.0 ==> r == b
    ensures b.pinchDistance > 0.0 ==>
              r == b.(stickers := r.stickers, pinchAngle := angle)
    ensures b.pinchDistance > 0.0 ==>
              forall j :: 0 <= j < |b.stickers| && Some(j) != SelectedIndex(b) ==> r.stickers[j] == b.stickers[j]
    ensures b.pinchDistance > 0.0 && SelectedIndex(b).Some? ==>
              var k := SelectedIndex(b).value;
              && r.stickers[k].width == Scaled(b.pinchWidth, distance, b.pinchDistance)
              && r.stickers[k].height == Scaled(b.pinchHeight, distance, b.pinchDistance)
              && r.stickers[k].rotation - b.stickers[k].rotation == angle - b.pinchAngle
              && r.stickers[k] == b.stickers[k].(width := r.stickers[k].width,
                                                 height := r.stickers[k].height,
                                                 rotation := r.stickers[k].rotation)
    ensures Valid(b) ==> Valid(r)
  {
    if b.pinchDistance > 0.0 then
      match SelectedIndex(b)
      case Some(k) =>
        var s := b.stickers[k];
        var s' := s.(width := Scaled(b.pinchWidth, distance, b.pinchDistance),
                     height := Scaled(b.pinchHeight, distance, b.pinchDistance),
                     rotation := s.rotation + (angle - b.pinchAngle));
        var r := b.(stickers := b.stickers[k := s'], pinchAngle := angle);
        assert Valid(b) ==> Valid(r) by {
          if Valid(b) { ReplaceKeepsIds(b.stickers, k, s', b.nextId); }
        }
        r
      case None => b.(pinchAngle := angle)
    else b
  }

  /** Dragging: the dragging selected sticker's corner follows the pointer at
      the offset recorded when the drag began. */
  function DragMove(b: Board, p: Point): (r: Board)
    ensures r == b.(stickers := r.stickers)
    ensures |r.stickers| == |b.stickers|
    ensures forall j :: 0 <= j < |b.stickers| && Some(j) != SelectedIndex(b) ==> r.stickers[j] == b.stickers[j]
    ensures match SelectedIndex(b)
            case Some(k) =>
              if b.stickers[k].dragging then
                r.stickers[k] == b.stickers[k].(x := p.x - b.dragOffset.x, y := p.y - b.dragOffset.y)
              else r == b
            case None => r == b
    ensures Valid(b) ==> Valid(r)
  {
    match SelectedIndex(b)
    case Some(k) =>
      var s := b.stickers[k];
      if s.dragging then
        var s' := s.(x := p.x - b.dragOffset.x, y := p.y - b.dragOffset.y);
        var r := b.(stickers := b.stickers[k := s']);
        assert Valid(b) ==> Valid(r) by {
          if Valid(b) { ReplaceKeepsIds(b.stickers, k, s', b.nextId); }
        }
        r
      else b
    case None => b
  }

  /** `pointerMove`: two fingers with a selection drive the pinch gesture;
      anything else drags. */
  function PointerMove(b: Board, g: Gesture): (r: Board)
    ensures Valid(b) ==> Valid(r)
  {
    if g.Touch? && g.count == 2 && b.selected.Some? then PinchMove(b, g.distance, g.angle)
    else DragMove(b, g.pos)
  }

  // ----------------------------------------------------------- pointer up

  /** `pointerUp`: mouse-up, mouse-leave, touch-end and touch-cancel. The
      selected sticker stops dragging; with fewer than two fingers left (or for
      the mouse) the pinch gesture ends. */
  function PointerUp(b: Board, g: Gesture): (r: Board)
    ensures r.selected == b.selected && |r.stickers| == |b.stickers|
    ensures forall j :: 0 <= j < |b.stickers| && Some(j) != SelectedIndex(b) ==> r.stickers[j] == b.stickers[j]
    ensures SelectedIndex(b).Some? ==>
              r.stickers[SelectedIndex(b).value] == b.stickers[SelectedIndex(b).value].(dragging := false)
    ensures g.Mouse? || g.count < 2 ==> r.pinchDistance == 0.0
    ensures g.Touch? && g.count >= 2 ==> r.pinchDistance == b.pinchDistance
    ensures r == b.(stickers := r.stickers, pinchDistance := r.pinchDistance)
    ensures Valid(b) ==> Valid(r)
  {
    var b1 :=
      match SelectedIndex(b)
      case Some(k) =>
        var s' := b.stickers[k].(dragging := false);
        var r := b.(stickers := b.stickers[k := s']);
        assert Valid(b) ==> Valid(r) by {
          if Valid(b) { ReplaceKeepsIds(b.stickers, k, s', b.nextId); }
        }
        r
      case None => b;
    if g.Mouse? || g.count < 2 then b1.(pinchDistance := 0.0) else b1
  }

  // ------------------------------------------------------------- keyboard

  /** A key that adjusts the selected sticker, and how. */
  predicate IsDeleteKey(key: string) { key == "Delete" || key == "Backspace" }
  predicate IsGrowKey(key: string) { key == "+" || key == "=" }
  predicate IsShrinkKey(key: string) { key == "-" || key == "_" }
  predicate IsAdjustmentKey(key: string) {
    IsDeleteKey(key) || key == "ArrowLeft" || key == "ArrowRight" || IsGrowKey(key) || IsShrinkKey(key)
  }

  /** `r` differs from `b` at most in the `k`th sticker. */
  predicate ChangesOnly(b: Board, r: Board, k: nat) {
    && r == b.(stickers := r.stickers)
    && |r.stickers| == |b.stickers|
    && forall j :: 0 <= j < |b.stickers| && j != k ==> r.stickers[j] == b.stickers[j]
  }

  /** Replaces the selected sticker by `s'` (same id). */
  function SetSelected(b: Board, k: nat, s': Sticker): (r: Board)
    requires k < |b.stickers| && s'.id == b.stickers[k].id
    ensures ChangesOnly(b, r, k) && r.stickers[k] == s'
    ensures Valid(b) ==> Valid(r)
  {
    var r := b.(stickers := b.stickers[k := s']);
    assert Valid(b) ==> Valid(r) by {
      if Valid(b) { ReplaceKeepsIds(b.stickers, k, s', b.nextId); }
    }
    r
  }

  /** The keydown handler. With a selection: Delete/Backspace removes the
      selected sticker and clears the selection; the arrows turn it by 5
      degrees; `+`/`=` and `-`/`_` scale it by 1.1 and 0.9. Without a
      selection, and for every other key, nothing happens. */
  function KeyDown(b: Board, key: string): (r: Board)
    ensures SelectedIndex(b).None? ==> r == b
    ensures SelectedIndex(b).Some? ==>
              var k := SelectedIndex(b).value;
              var s := b.stickers[k];
              && (IsDeleteKey(key) ==>
                    && r == b.(stickers := RemoveAt(b.stickers, k), selected := None)
                    && (Valid(b) ==> !Member(r.stickers, s.id)))
              && (key == "ArrowLeft" ==>
                    ChangesOnly(b, r, k) && r.stickers[k] == s.(rotation := s.rotation - 5.0))
              && (key == "ArrowRight" ==>
                    ChangesOnly(b, r, k) && r.stickers[k] == s.(rotation := s.rotation + 5.0))
              && (IsGrowKey(key) ==>
                    ChangesOnly(b, r, k) && r.stickers[k] == s.(width := s.width * 1.1, height := s.height * 1.1))
              && (IsShrinkKey(key) ==>
                    ChangesOnly(b, r, k) && r.stickers[k] == s.(width := s.width * 0.9, height := s.height * 0.9))
    ensures !IsAdjustmentKey(key) ==> r == b
    ensures Valid(b) ==> Valid(r)
  {
    match SelectedIndex(b)
    case None => b
    case Some(k) =>
      var s := b.stickers[k];
      if IsDeleteKey(key) then
        var r := b.(stickers := RemoveAt(b.stickers, k), selected := None);
        assert Valid(b) ==> Valid(r) && !Member(r.stickers, s.id) by {
          if Valid(b) { RemoveAtMembers(b.stickers, k, b.nextId); }
        }
        r
      else if key == "ArrowLeft" then SetSelected(b, k, s.(rotation := s.rotation - ROTATE_STEP))
      else if key == "ArrowRight" then SetSelected(b, k, s.(rotation := s.rotation + ROTATE_STEP))
      else if IsGrowKey(key) then SetSelected(b, k, s.(width := s.width * GROW, height := s.height * GROW))
      else if IsShrinkKey(key) then SetSelected(b, k, s.(width := s.width * SHRINK, height := s.height * SHRINK))
      else b
  }

  // ---------------------------------------------------------------- reset

  /** The reset button removes every sticker and clears the selection. */
  function Reset(b: Board): (r: Board)
    ensures r.stickers == [] && r.selected.None?
    ensures r == b.(stickers := r.stickers, selected := r.selected)
    ensures Valid(b) ==> Valid(r)
  {
    b.(stickers := [], selected := None)
  }
}
