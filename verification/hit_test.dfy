/** The rotated-rectangle hit test of the decoration page. The page evaluates
    the cosine and sine of the sticker's negated rotation itself; here they are
    inputs, so the test is exact arithmetic on the sticker's current geometry.
    The board handlers take any hit test; this one is what the page passes. */
module RotatedHit {
  import opened Geometry
  import opened StickerList

  /** The centre of the sticker's rectangle. */
  function Centre(s: Sticker): Point {
    Point(s.x + s.width / 2.0, s.y + s.height / 2.0)
  }

  /** `isPointInSticker`: rotate the point's offset from the centre by the
      negated rotation (given as `cos`, `sin`) into the sticker's own frame and
      compare with the half-width and half-height. */
  predicate InSticker(p: Point, s: Sticker, cos: real, sin: real) {
    var dx := p.x - Centre(s).x;
    var dy := p.y - Centre(s).y;
    var rx := dx * cos - dy * sin;
    var ry := dx * sin + dy * cos;
    Abs(rx) <= s.width / 2.0 && Abs(ry) <= s.height / 2.0
  }

  /** Every sticker of non-negative size contains its own centre, at every rotation. */
  lemma CentreIsHit(s: Sticker, cos: real, sin: real)
    requires s.width >= 0.0 && s.height >= 0.0
    ensures InSticker(Centre(s), s, cos, sin)
  {
  }

  /** At rotation 0 (cosine 1, sine 0) the test is the plain axis-aligned
      containment in the rectangle. */
  lemma UnrotatedIsAxisAligned(p: Point, s: Sticker)
    ensures InSticker(p, s, 1.0, 0.0) <==>
              s.x <= p.x <= s.x + s.width && s.y <= p.y <= s.y + s.height
  {
  }

  /** For a genuine rotation (cos² + sin² = 1), a point farther from the centre
      than the rectangle's half-diagonal is never hit. */
  lemma FarPointMisses(p: Point, s: Sticker, cos: real, sin: real)
    requires cos * cos + sin * sin == 1.0
    requires var dx := p.x - Centre(s).x;
             var dy := p.y - Centre(s).y;
             4.0 * (dx * dx + dy * dy) > s.width * s.width + s.height * s.height
    ensures !InSticker(p, s, cos, sin)
  {
    var dx := p.x - Centre(s).x;
    var dy := p.y - Centre(s).y;
    var rx := dx * cos - dy * sin;
    var ry := dx * sin + dy * cos;
    RotationKeepsLength(dx, dy, cos, sin);
    if InSticker(p, s, cos, sin) {
      SquareBound(rx, s.width / 2.0);
      SquareBound(ry, s.height / 2.0);
      assert false;
    }
  }

  /** Rotating by an angle with cos² + sin² = 1 keeps the squared length. */
  lemma RotationKeepsLength(dx: real, dy: real, cos: real, sin: real)
    requires cos * cos + sin * sin == 1.0
    ensures var rx := dx * cos - dy * sin;
            var ry := dx * sin + dy * cos;
            rx * rx + ry * ry == dx * dx + dy * dy
  {
    var rx := dx * cos - dy * sin;
    var ry := dx * sin + dy * cos;
    assert rx * rx + ry * ry == (dx * dx + dy * dy) * (cos * cos + sin * sin);
  }

  /** |a| <= b implies a² <= b². */
  lemma SquareBound(a: real, b: real)
    requires Abs(a) <= b
    ensures a * a <= b * b
  {
    if a >= 0.0 {
      assert a * a <= a * b <= b * b;
    } else {
      assert a * a == (-a) * (-a) <= (-a) * b <= b * b;
    }
  }
}
