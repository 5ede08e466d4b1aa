/** Page-space rectangles and the distance predicates the layout engine is built on. */
module Geometry {
  import opened Wrappers

  datatype Point = Point(x: real, y: real)

  datatype Size = Size(w: real, h: real)

  datatype Rect = Rect(x: real, y: real, w: real, h: real)

  function Right(r: Rect): real { r.x + r.w }

  function Bottom(r: Rect): real { r.y + r.h }

  function Max(a: real, b: real): real { if a < b then b else a }

  function Min(a: real, b: real): real { if b < a then b else a }

  function Abs(x: real): real { if x < 0.0 then -x else x }

  function Centre(r: Rect): Point {
    Point(r.x + r.w / 2.0, r.y + r.h / 2.0)
  }

  function Shift(r: Rect, dx: real, dy: real): Rect {
    r.(x := r.x + dx, y := r.y + dy)
  }

  /** Overlapping, or apart by less than `gap`. */
  predicate CloserThan(a: Rect, b: Rect, gap: real) {
    a.x < Right(b) + gap && b.x < Right(a) + gap && a.y < Bottom(b) + gap && b.y < Bottom(a) + gap
  }

  function OverlapArea(a: Rect, b: Rect): real {
    var w := Min(Right(a), Right(b)) - Max(a.x, b.x);
    var h := Min(Bottom(a), Bottom(b)) - Max(a.y, b.y);
    if w > 0.0 && h > 0.0 then w * h else 0.0
  }

  /** The empty space between two rectangles along the axis they are separated on; 0 when they overlap. */
  function GapBetween(a: Rect, b: Rect): real {
    var dx := Max(Max(a.x - Right(b), b.x - Right(a)), 0.0);
    var dy := Max(Max(a.y - Bottom(b), b.y - Bottom(a)), 0.0);
    Max(dx, dy)
  }

  /** The placer's test and the verifier's measure agree: clear by a positive gap is the same as being that far apart. */
  lemma PlacerAndVerifierAgree(a: Rect, b: Rect, gap: real)
    requires gap > 0.0
    ensures !CloserThan(a, b, gap) <==> GapBetween(a, b) >= gap
  {
  }

  /** Rectangles are so far apart exactly if one of the four sides of the one is that far beyond the opposite side of the other. */
  lemma GapIsDistance(a: Rect, b: Rect, gap: real)
    requires gap > 0.0
    ensures GapBetween(a, b) >= gap <==>
            a.x >= b.x + b.w + gap || b.x >= a.x + a.w + gap || a.y >= b.y + b.h + gap || b.y >= a.y + a.h + gap
  {
  }

  predicate Inside(a: Rect, b: Rect) {
    b.x <= a.x && b.y <= a.y && Right(a) <= Right(b) && Bottom(a) <= Bottom(b)
  }

  predicate Proper(r: Rect) {
    r.w >= 0.0 && r.h >= 0.0
  }

  /** The area of the greatest rectangle inside both, and nothing where there is none of any size. */
  lemma OverlapIsShared(a: Rect, b: Rect) returns (shared: Rect)
    ensures if OverlapArea(a, b) > 0.0 then
              && shared.w > 0.0 && shared.h > 0.0 && OverlapArea(a, b) == shared.w * shared.h && Inside(shared, a) && Inside(shared, b)
              && forall r :: Inside(r, a) && Inside(r, b) ==> Inside(r, shared)
            else
              OverlapArea(a, b) == 0.0 && forall r :: Inside(r, a) && Inside(r, b) ==> r.w <= 0.0 || r.h <= 0.0
  {
    var x, y := Max(a.x, b.x), Max(a.y, b.y);
    shared := Rect(x, y, Min(Right(a), Right(b)) - x, Min(Bottom(a), Bottom(b)) - y);
    if shared.w > 0.0 && shared.h > 0.0 {
      assert shared.w * shared.h > 0.0;
    }
  }

  /** What is inside a clear rectangle is clear. */
  lemma InsideOfClearIsClear(a: Rect, outer: Rect, b: Rect, gap: real)
    requires Inside(a, outer) && !CloserThan(outer, b, gap)
    ensures !CloserThan(a, b, gap)
  {
  }

  /* --------------------------------------------------------------------- unions */

  function Join(a: Rect, b: Rect): Rect {
    var x, y := Min(a.x, b.x), Min(a.y, b.y);
    Rect(x, y, Max(Right(a), Right(b)) - x, Max(Bottom(a), Bottom(b)) - y)
  }

  function Union(rects: seq<Rect>): Rect
    requires rects != []
    decreases |rects|
  {
    if |rects| == 1 then rects[0] else Join(Union(rects[..|rects| - 1]), rects[|rects| - 1])
  }

  /** The union contains every rectangle, and every side of it is the side of one of them: it is the least such box. */
  lemma {:induction false} UnionIsLeastBox(rects: seq<Rect>)
    requires rects != []
    ensures forall r :: r in rects ==> Inside(r, Union(rects))
    ensures forall box :: (forall r :: r in rects ==> Inside(r, box)) ==> Inside(Union(rects), box)
    decreases |rects|
  {
    var last, front := rects[|rects| - 1], rects[..|rects| - 1];
    assert last in rects;
    if |rects| > 1 {
      UnionIsLeastBox(front);
      assert forall r :: r in rects <==> r == last || r in front;
    }
    forall box | forall r :: r in rects ==> Inside(r, box)
      ensures Inside(Union(rects), box)
    {
      assert Inside(last, box);
      if |rects| > 1 {
        assert Inside(Union(front), box);
      }
    }
  }

  /** Shifting every rectangle shifts their union. */
  lemma {:induction false} UnionShifts(rects: seq<Rect>, rects': seq<Rect>, dx: real, dy: real)
    requires rects != [] && |rects'| == |rects| && forall i :: 0 <= i < |rects| ==> rects'[i] == Shift(rects[i], dx, dy)
    ensures Union(rects') == Shift(Union(rects), dx, dy)
    decreases |rects|
  {
    if |rects| > 1 {
      UnionShifts(rects[..|rects| - 1], rects'[..|rects| - 1], dx, dy);
    }
  }

  /** Running bounds; the infinities of the source stand for having seen nothing yet. */
  method RectUnion(rects: seq<Rect>) returns (union: Option<Rect>)
    ensures union == if rects == [] then None else Some(Union(rects))
  {
    if |rects| == 0 {
      return None;
    }
    var minX, minY, maxX, maxY := rects[0].x, rects[0].y, Right(rects[0]), Bottom(rects[0]);
    assert rects[..1] == [rects[0]];
    for i := 1 to |rects|
      invariant Union(rects[..i]) == Rect(minX, minY, maxX - minX, maxY - minY)
    {
      assert rects[..i + 1][..i] == rects[..i];
      minX, minY := Min(minX, rects[i].x), Min(minY, rects[i].y);
      maxX, maxY := Max(maxX, Right(rects[i])), Max(maxY, Bottom(rects[i]));
    }
    assert rects[..|rects|] == rects;
    return Some(Rect(minX, minY, maxX - minX, maxY - minY));
  }
}
