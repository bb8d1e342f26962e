/** The paint-order list of stickers on the decoration page and the pure
    list operations its event handlers are built from. Index 0 is painted
    first; the last element is drawn on top. */
module StickerList {
  import opened Wrappers
  import opened Geometry

  /** The sticker images the page offers. */
  datatype Asset = Fish | Octopus | Seaweed1 | Seaweed2 | Axolotl | Bubble1 | Bubble2

  /** A placed sticker. The page identifies stickers by object identity;
      here each sticker carries a unique `id` instead. `(x, y)` is the
      top-left corner before rotation, `rotation` is in degrees about the
      centre, and `dragging` is set while a pointer drags the sticker. */
  datatype Sticker = Sticker(
    id: nat,
    asset: Asset,
    x: real,
    y: real,
    width: real,
    height: real,
    rotation: real,
    dragging: bool)

  /** Does the point lie on the sticker as it is currently drawn?
      The page computes this with trigonometry; the model keeps it abstract. */
  type HitTest = (Point, Sticker) -> bool

  predicate Member(ss: seq<Sticker>, id: nat) {
    exists i :: 0 <= i < |ss| && ss[i].id == id
  }

  predicate DistinctIds(ss: seq<Sticker>) {
    forall i, j :: 0 <= i < j < |ss| ==> ss[i].id != ss[j].id
  }

  predicate IdsBelow(ss: seq<Sticker>, bound: nat) {
    forall i :: 0 <= i < |ss| ==> ss[i].id < bound
  }

  /** The ids in paint order. */
  function Ids(ss: seq<Sticker>): (r: seq<nat>)
    ensures |r| == |ss|
    ensures forall i :: 0 <= i < |ss| ==> r[i] == ss[i].id
  {
    seq(|ss|, i requires 0 <= i < |ss| => ss[i].id)
  }

  /** The hit search of the pointer handlers: scan from the last (topmost)
      sticker down to the first and report the first index that is hit. */
  function TopHit(ss: seq<Sticker>, p: Point, hit: HitTest): (r: Option<nat>)
    ensures r.Some? ==> r.value < |ss| && hit(p, ss[r.value])
    ensures r.Some? ==> forall j :: r.value < j < |ss| ==> !hit(p, ss[j])
    ensures r.None? <==> forall j :: 0 <= j < |ss| ==> !hit(p, ss[j])
    decreases |ss|
  {
    if |ss| == 0 then None
    else if hit(p, ss[|ss| - 1]) then Some(|ss| - 1)
    else TopHit(ss[..|ss| - 1], p, hit)
  }

  /** `Array.prototype.indexOf`: the first index holding the sticker with this id. */
  function IndexOf(ss: seq<Sticker>, id: nat): (r: Option<nat>)
    ensures r.Some? ==> r.value < |ss| && ss[r.value].id == id
    ensures r.Some? ==> forall j :: 0 <= j < r.value ==> ss[j].id != id
    ensures r.None? <==> !Member(ss, id)
    decreases |ss|
  {
    if |ss| == 0 then None
    else if ss[0].id == id then Some(0)
    else
      match IndexOf(ss[1..], id)
      case None =>
        assert forall j :: 1 <= j < |ss| ==> ss[j] == ss[1..][j - 1];
        None
      case Some(k) => Some(k + 1)
  }

  /** `splice(i, 1)`: the list without its `i`th element. */
  function RemoveAt(ss: seq<Sticker>, i: nat): (r: seq<Sticker>)
    requires i < |ss|
    ensures |r| == |ss| - 1
    ensures forall j :: 0 <= j < i ==> r[j] == ss[j]
    ensures forall j :: i <= j < |r| ==> r[j] == ss[j + 1]
  {
    ss[..i] + ss[i + 1..]
  }

  /** `splice(i, 1)` followed by `push(s)`: the `i`th sticker, replaced by `s`,
      moves to the top of the paint order. */
  function BringToFront(ss: seq<Sticker>, i: nat, s: Sticker): (r: seq<Sticker>)
    requires i < |ss|
    ensures |r| == |ss| && r[|r| - 1] == s
    ensures r[..|r| - 1] == RemoveAt(ss, i)
  {
    RemoveAt(ss, i) + [s]
  }

  /** Removing a sticker keeps the ids distinct and below the bound, removes
      exactly that id and keeps every other id. */
  lemma {:induction false} RemoveAtMembers(ss: seq<Sticker>, i: nat, bound: nat)
    requires i < |ss|
    requires DistinctIds(ss) && IdsBelow(ss, bound)
    ensures DistinctIds(RemoveAt(ss, i)) && IdsBelow(RemoveAt(ss, i), bound)
    ensures !Member(RemoveAt(ss, i), ss[i].id)
    ensures forall id :: id != ss[i].id ==> (Member(RemoveAt(ss, i), id) <==> Member(ss, id))
  {
    var r := RemoveAt(ss, i);
    forall id | id != ss[i].id && Member(ss, id)
      ensures Member(r, id)
    {
      var j :| 0 <= j < |ss| && ss[j].id == id;
      if j < i {
        assert r[j].id == id;
      } else {
        assert r[j - 1].id == id;
      }
    }
  }

  /** Bringing a sticker to the front is a permutation of the ids: the
      multiset of ids is unchanged, so distinctness and bounds survive. */
  lemma {:induction false} BringToFrontPermutes(ss: seq<Sticker>, i: nat, s: Sticker)
    requires i < |ss| && s.id == ss[i].id
    ensures multiset(Ids(BringToFront(ss, i, s))) == multiset(Ids(ss))
  {
    var r := BringToFront(ss, i, s);
    assert Ids(r) == Ids(ss[..i]) + Ids(ss[i + 1..]) + [ss[i].id];
    assert Ids(ss) == Ids(ss[..i]) + [ss[i].id] + Ids(ss[i + 1..]);
  }

  /** Bringing a sticker to the front keeps the ids distinct and below the
      bound, and `indexOf` then finds it on top. */
  lemma {:induction false} BringToFrontDistinct(ss: seq<Sticker>, i: nat, s: Sticker, bound: nat)
    requires i < |ss| && s.id == ss[i].id
    requires DistinctIds(ss) && IdsBelow(ss, bound)
    ensures DistinctIds(BringToFront(ss, i, s)) && IdsBelow(BringToFront(ss, i, s), bound)
    ensures IndexOf(BringToFront(ss, i, s), s.id) == Some(|ss| - 1)
  {
    var r := BringToFront(ss, i, s);
    var rest := RemoveAt(ss, i);
    forall j, k | 0 <= j < k < |r|
      ensures r[j].id != r[k].id
    {
      if k == |r| - 1 {
        if j < i {
          assert r[j] == ss[j];
        } else {
          assert r[j] == ss[j + 1];
        }
      } else {
        assert r[j] == rest[j] && r[k] == rest[k];
        if j < i && k >= i {
          assert r[k] == ss[k + 1];
        }
      }
    }
    IndexOfDistinct(r, |r| - 1);
  }

  /** Bringing a sticker to the front keeps exactly the same members. */
  lemma {:induction false} BringToFrontMembers(ss: seq<Sticker>, i: nat, s: Sticker)
    requires i < |ss| && s.id == ss[i].id
    ensures forall id :: Member(BringToFront(ss, i, s), id) <==> Member(ss, id)
  {
    var r := BringToFront(ss, i, s);
    forall id | Member(r, id)
      ensures Member(ss, id)
    {
      var j :| 0 <= j < |r| && r[j].id == id;
      if j == |r| - 1 {
        assert ss[i].id == id;
      } else if j < i {
        assert ss[j].id == id;
      } else {
        assert ss[j + 1].id == id;
      }
    }
    forall id | Member(ss, id)
      ensures Member(r, id)
    {
      var j :| 0 <= j < |ss| && ss[j].id == id;
      if j == i {
        assert r[|r| - 1].id == id;
      } else if j < i {
        assert r[j].id == id;
      } else {
        assert r[j - 1].id == id;
      }
    }
  }

  /** Replacing a sticker by one with the same id keeps the ids. */
  lemma ReplaceKeepsIds(ss: seq<Sticker>, k: nat, s: Sticker, bound: nat)
    requires k < |ss| && s.id == ss[k].id
    requires DistinctIds(ss) && IdsBelow(ss, bound)
    ensures DistinctIds(ss[k := s]) && IdsBelow(ss[k := s], bound)
    ensures forall id :: Member(ss[k := s], id) <==> Member(ss, id)
  {
    var r := ss[k := s];
    forall id | Member(ss, id)
      ensures Member(r, id)
    {
      var j :| 0 <= j < |ss| && ss[j].id == id;
      assert r[j].id == id;
    }
  }

  /** `indexOf` looks only at identities. */
  lemma {:induction false} IndexOfDependsOnIds(a: seq<Sticker>, c: seq<Sticker>, id: nat)
    requires Ids(a) == Ids(c)
    ensures IndexOf(a, id) == IndexOf(c, id)
    decreases |a|
  {
    if |a| > 0 && a[0].id != id {
      assert |c| == |a| && c[0].id == a[0].id;
      assert Ids(a[1..]) == Ids(c[1..]) by {
        forall j | 0 <= j < |a| - 1
          ensures Ids(a[1..])[j] == Ids(c[1..])[j]
        {
          assert Ids(a)[j + 1] == Ids(c)[j + 1];
        }
      }
      IndexOfDependsOnIds(a[1..], c[1..], id);
    }
  }

  /** With distinct identities, `indexOf` finds a sticker at its own index. */
  lemma IndexOfDistinct(ss: seq<Sticker>, k: nat)
    requires k < |ss| && DistinctIds(ss)
    ensures IndexOf(ss, ss[k].id) == Some(k)
  {
    var r := IndexOf(ss, ss[k].id);
    assert Member(ss, ss[k].id);
  }
}
