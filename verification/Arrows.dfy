/** Where a line from the middle of a box leaves it. */
module Arrows {
  import opened Geometry
  import opened Transforms
  import opened LayoutBounds
  import opened Drift

  function LeaveScale(dx: real, dy: real, rx: real, ry: real): real
    requires rx > 0.0 && ry > 0.0
  {
    Max(Abs(dx) / rx, Abs(dy) / ry)
  }

  lemma ScaleIsPositive(dx: real, dy: real, rx: real, ry: real)
    requires rx > 0.0 && ry > 0.0 && (dx != 0.0 || dy != 0.0)
    ensures LeaveScale(dx, dy, rx, ry) > 0.0
  {
    if dx != 0.0 {
      assert Abs(dx) / rx > 0.0;
    } else {
      assert Abs(dy) / ry > 0.0;
    }
  }

  /** From the middle of a box with these half sides, as far in this direction as its edge. */
  function Leave(dx: real, dy: real, rx: real, ry: real): Point
    requires rx > 0.0 && ry > 0.0
  {
    if dx == 0.0 && dy == 0.0 then Point(0.0, 0.0)
    else
      ScaleIsPositive(dx, dy, rx, ry);
      var scale := 1.0 / LeaveScale(dx, dy, rx, ry);
      Point(dx * scale, dy * scale)
  }

  /** Half a side, but never less than 1. */
  function Half(side: real): real {
    Max(side / 2.0, 1.0)
  }

  function EdgePoint(r: Rect, toward: Point): Point {
    var c := Centre(r);
    var d := Leave(toward.x - c.x, toward.y - c.y, Half(r.w), Half(r.h));
    Nudged(c, d.x, d.y)
  }

  lemma ScaledWithin(d: real, r: real, scale: real)
    requires r > 0.0 && scale > 0.0 && Abs(d) / r <= scale
    ensures Abs(d * (1.0 / scale)) <= r
  {
    assert Abs(d) <= scale * r;
    assert Abs(d) * (1.0 / scale) <= scale * r * (1.0 / scale);
    assert scale * r * (1.0 / scale) == r;
  }

  lemma LeaveStaysWithin(dx: real, dy: real, rx: real, ry: real)
    requires rx > 0.0 && ry > 0.0
    ensures Abs(Leave(dx, dy, rx, ry).x) <= rx && Abs(Leave(dx, dy, rx, ry).y) <= ry
  {
    if dx != 0.0 || dy != 0.0 {
      ScaleIsPositive(dx, dy, rx, ry);
      ScaledWithin(dx, rx, LeaveScale(dx, dy, rx, ry));
      ScaledWithin(dy, ry, LeaveScale(dx, dy, rx, ry));
    }
  }

  /** In the box, or no further out of it than 1 where the box is thinner than 2. */
  ghost predicate Near(p: Point, r: Rect) {
    Abs(p.x - Centre(r).x) <= Half(r.w) && Abs(p.y - Centre(r).y) <= Half(r.h)
  }

  lemma EdgeIsNear(r: Rect, toward: Point)
    ensures Near(EdgePoint(r, toward), r)
  {
    LeaveStaysWithin(toward.x - Centre(r).x, toward.y - Centre(r).y, Half(r.w), Half(r.h));
  }

  lemma AnchorIsNear(r: Rect, anchor: Point)
    requires Proper(r) && 0.0 <= anchor.x <= 1.0 && 0.0 <= anchor.y <= 1.0
    ensures Near(Anchored(r, anchor), r)
  {
    NearMiddle(r.x, r.w, anchor.x, anchor.x * r.w);
    NearMiddle(r.y, r.h, anchor.y, anchor.y * r.h);
  }

  lemma NearMiddle(x: real, w: real, a: real, share: real)
    requires 0.0 <= a <= 1.0 && w >= 0.0 && share == a * w
    ensures Abs(x + share - (x + w / 2.0)) <= Half(w)
  {
    assert (1.0 - a) * w >= 0.0;
    assert 0.0 <= share <= w;
  }

  lemma EdgeFollows(r: Rect, p: Point, dx: real, dy: real)
    ensures EdgePoint(Shift(r, dx, dy), Nudged(p, dx, dy)) == Nudged(EdgePoint(r, p), dx, dy)
  {
    var c := Centre(r);
    CentreFollows(r, dx, dy);
    assert p.x + dx - (c.x + dx) == p.x - c.x && p.y + dy - (c.y + dy) == p.y - c.y;
  }
}
