/**
 * The bounding box `Tessellate` widens over every accepted shape's screen
 * coordinates; `Render` later derives the world-to-pixel scale from it.
 * Coordinates are reals, so `Math.Min` and `Math.Max` are exact here.
 */
module BoundingBoxes {
  import opened Shapes

  datatype BoundingBox = BoundingBox(minX: real, maxX: real, minY: real, maxY: real)

  function Min(a: real, b: real): real { if a <= b then a else b }

  function Max(a: real, b: real): real { if a <= b then b else a }

  predicate Contains(b: BoundingBox, p: ScreenPoint) {
    b.minX <= p.x <= b.maxX && b.minY <= p.y <= b.maxY
  }

  /** Every bound of `outer` lies at or beyond the same bound of `inner`: the box did not narrow. */
  predicate Encloses(outer: BoundingBox, inner: BoundingBox) {
    outer.minX <= inner.minX && inner.maxX <= outer.maxX &&
    outer.minY <= inner.minY && inner.maxY <= outer.maxY
  }

  predicate ContainsAll(b: BoundingBox, pts: seq<ScreenPoint>) {
    forall j :: 0 <= j < |pts| ==> Contains(b, pts[j])
  }

  /** Every bound of `r` is the old bound or the coordinate of one of the points. */
  ghost predicate Attained(r: BoundingBox, box: BoundingBox, pts: seq<ScreenPoint>) {
    (r.minX == box.minX || exists j :: 0 <= j < |pts| && r.minX == pts[j].x) &&
    (r.maxX == box.maxX || exists j :: 0 <= j < |pts| && r.maxX == pts[j].x) &&
    (r.minY == box.minY || exists j :: 0 <= j < |pts| && r.minY == pts[j].y) &&
    (r.maxY == box.maxY || exists j :: 0 <= j < |pts| && r.maxY == pts[j].y)
  }

  /** `r` is `box` widened by `pts`: the smallest box holding both (see `WideningIsUnique`). */
  ghost predicate IsWidening(box: BoundingBox, pts: seq<ScreenPoint>, r: BoundingBox) {
    Encloses(r, box) && ContainsAll(r, pts) && Attained(r, box, pts)
  }

  /** The min/max loop of `Tessellate` over a shape's screen coordinates. */
  method Widen(box: BoundingBox, pts: seq<ScreenPoint>) returns (r: BoundingBox)
    ensures Encloses(r, box)
    ensures ContainsAll(r, pts)
    ensures Attained(r, box, pts)
  {
    r := box;
    for j := 0 to |pts|
      invariant Encloses(r, box)
      invariant ContainsAll(r, pts[..j])
      invariant Attained(r, box, pts[..j])
    {
      r := r.(minX := Min(r.minX, pts[j].x));
      r := r.(maxX := Max(r.maxX, pts[j].x));
      r := r.(minY := Min(r.minY, pts[j].y));
      r := r.(maxY := Max(r.maxY, pts[j].y));
      assert pts[..j + 1] == pts[..j] + [pts[j]];
    }
    assert pts[..|pts|] == pts;
  }

  /** The widening contract determines the box: each bound is the min or max of the old bound and the points. */
  lemma WideningIsUnique(box: BoundingBox, pts: seq<ScreenPoint>, r1: BoundingBox, r2: BoundingBox)
    requires IsWidening(box, pts, r1) && IsWidening(box, pts, r2)
    ensures r1 == r2
  {
  }

  /** Widening by one shape's points and then another's is widening by all of them at once. */
  lemma WideningComposes(b0: BoundingBox, p1: seq<ScreenPoint>, b1: BoundingBox, p2: seq<ScreenPoint>, b2: BoundingBox)
    requires IsWidening(b0, p1, b1) && IsWidening(b1, p2, b2)
    ensures IsWidening(b0, p1 + p2, b2)
  {
    if b2.minX != b0.minX {
      if b2.minX == b1.minX {
        var j :| 0 <= j < |p1| && b1.minX == p1[j].x;
        assert (p1 + p2)[j] == p1[j];
      } else {
        var j :| 0 <= j < |p2| && b2.minX == p2[j].x;
        assert (p1 + p2)[|p1| + j] == p2[j];
      }
    }
    if b2.maxX != b0.maxX {
      if b2.maxX == b1.maxX {
        var j :| 0 <= j < |p1| && b1.maxX == p1[j].x;
        assert (p1 + p2)[j] == p1[j];
      } else {
        var j :| 0 <= j < |p2| && b2.maxX == p2[j].x;
        assert (p1 + p2)[|p1| + j] == p2[j];
      }
    }
    if b2.minY != b0.minY {
      if b2.minY == b1.minY {
        var j :| 0 <= j < |p1| && b1.minY == p1[j].y;
        assert (p1 + p2)[j] == p1[j];
      } else {
        var j :| 0 <= j < |p2| && b2.minY == p2[j].y;
        assert (p1 + p2)[|p1| + j] == p2[j];
      }
    }
    if b2.maxY != b0.maxY {
      if b2.maxY == b1.maxY {
        var j :| 0 <= j < |p1| && b1.maxY == p1[j].y;
        assert (p1 + p2)[j] == p1[j];
      } else {
        var j :| 0 <= j < |p2| && b2.maxY == p2[j].y;
        assert (p1 + p2)[|p1| + j] == p2[j];
      }
    }
  }
}
