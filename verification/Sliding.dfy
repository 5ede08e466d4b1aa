/** Sliding a box along one axis until it is clear of everything in its way. */
module Sliding {
  import opened Geometry

  datatype Axis = AlongX | AlongY

  const SLIDE_CAP: nat := 500

  function Placed(p: Point, size: Size): Rect {
    Rect(p.x, p.y, size.w, size.h)
  }

  function Coordinate(p: Point, axis: Axis): real {
    if axis == AlongX then p.x else p.y
  }

  function At(p: Point, axis: Axis, v: real): Point {
    if axis == AlongX then p.(x := v) else p.(y := v)
  }

  function FarEdge(r: Rect, axis: Axis): real {
    if axis == AlongX then Right(r) else Bottom(r)
  }

  predicate Clear(blockers: seq<Rect>, box: Rect, gap: real) {
    forall b :: b in blockers ==> !CloserThan(box, b, gap)
  }

  function Hits(blockers: seq<Rect>, box: Rect, gap: real): seq<Rect>
    decreases |blockers|
  {
    if blockers == [] then []
    else
      var front := Hits(blockers[..|blockers| - 1], box, gap);
      var b := blockers[|blockers| - 1];
      if CloserThan(box, b, gap) then front + [b] else front
  }

  function Farthest(rects: seq<Rect>, axis: Axis): real
    requires rects != []
    decreases |rects|
  {
    if |rects| == 1 then FarEdge(rects[0], axis)
    else Max(Farthest(rects[..|rects| - 1], axis), FarEdge(rects[|rects| - 1], axis))
  }

  /** At most `fuel` jumps, each just past everything hit. */
  function Slide(blockers: seq<Rect>, size: Size, p: Point, axis: Axis, gap: real, fuel: nat): Point
    decreases fuel
  {
    var hits := Hits(blockers, Placed(p, size), gap);
    if fuel == 0 || hits == [] then p
    else Slide(blockers, size, At(p, axis, Farthest(hits, axis) + gap), axis, gap, fuel - 1)
  }

  lemma {:induction false} HitMembers(blockers: seq<Rect>, box: Rect, gap: real)
    ensures forall b :: b in Hits(blockers, box, gap) <==> b in blockers && CloserThan(box, b, gap)
    ensures Hits(blockers, box, gap) == [] <==> Clear(blockers, box, gap)
    decreases |blockers|
  {
    if blockers != [] {
      HitMembers(blockers[..|blockers| - 1], box, gap);
      assert forall b :: b in blockers <==> b == blockers[|blockers| - 1] || b in blockers[..|blockers| - 1];
    }
    if Hits(blockers, box, gap) != [] {
      SomeMember(Hits(blockers, box, gap));
    }
  }

  lemma SomeMember(rects: seq<Rect>)
    requires rects != []
    ensures exists b :: b in rects
  {
    assert rects[0] in rects;
  }

  lemma {:induction false} FarthestIsMax(rects: seq<Rect>, axis: Axis) returns (r: Rect)
    requires rects != []
    ensures r in rects && FarEdge(r, axis) == Farthest(rects, axis)
    ensures forall b :: b in rects ==> FarEdge(b, axis) <= Farthest(rects, axis)
    decreases |rects|
  {
    var last, front := rects[|rects| - 1], rects[..|rects| - 1];
    r := last;
    if |rects| > 1 {
      var best := FarthestIsMax(front, axis);
      assert forall b :: b in rects <==> b == last || b in front;
      if FarEdge(last, axis) < FarEdge(best, axis) {
        r := best;
      }
    }
  }

  /** One jump lands strictly ahead, exactly at the far edge plus gap of a rectangle it hit, and no spot in between is clear. */
  lemma OneJump(blockers: seq<Rect>, size: Size, p: Point, axis: Axis, gap: real) returns (wall: Rect)
    requires Hits(blockers, Placed(p, size), gap) != []
    ensures var v := Farthest(Hits(blockers, Placed(p, size), gap), axis) + gap;
            && wall in blockers && FarEdge(wall, axis) + gap == v && Coordinate(p, axis) < v
            && (forall u :: Coordinate(p, axis) <= u < v ==> CloserThan(Placed(At(p, axis, u), size), wall, gap))
  {
    var hits := Hits(blockers, Placed(p, size), gap);
    HitMembers(blockers, Placed(p, size), gap);
    wall := FarthestIsMax(hits, axis);
  }

  /** How many blockers still reach beyond `v`: those already passed can never be hit again. */
  function Ahead(blockers: seq<Rect>, axis: Axis, gap: real, v: real): nat
    decreases |blockers|
  {
    if blockers == [] then 0
    else Ahead(blockers[..|blockers| - 1], axis, gap, v) + if v < FarEdge(blockers[|blockers| - 1], axis) + gap then 1 else 0
  }

  lemma {:induction false} AheadShrinks(blockers: seq<Rect>, axis: Axis, gap: real, v: real, v': real)
    requires v <= v'
    ensures Ahead(blockers, axis, gap, v') <= Ahead(blockers, axis, gap, v) <= |blockers|
    ensures (exists b :: b in blockers && v < FarEdge(b, axis) + gap <= v') ==>
              Ahead(blockers, axis, gap, v') < Ahead(blockers, axis, gap, v)
    decreases |blockers|
  {
    if blockers != [] {
      AheadShrinks(blockers[..|blockers| - 1], axis, gap, v, v');
      assert forall b :: b in blockers <==> b == blockers[|blockers| - 1] || b in blockers[..|blockers| - 1];
    }
  }

  lemma {:induction false} NothingAheadIsClear(blockers: seq<Rect>, size: Size, p: Point, axis: Axis, gap: real)
    requires Ahead(blockers, axis, gap, Coordinate(p, axis)) == 0
    ensures Clear(blockers, Placed(p, size), gap)
    decreases |blockers|
  {
    if blockers != [] {
      NothingAheadIsClear(blockers[..|blockers| - 1], size, p, axis, gap);
      assert forall b :: b in blockers <==> b == blockers[|blockers| - 1] || b in blockers[..|blockers| - 1];
    }
  }

  /**
   * Whatever the blockers and the cap, a slide only moves forward along its axis, and passes over no clear
   * spot: every position from the start up to, not including, the result is blocked.
   */
  lemma {:induction false} SlideSkipsNothing(blockers: seq<Rect>, size: Size, p: Point, axis: Axis, gap: real, fuel: nat)
    ensures var q := Slide(blockers, size, p, axis, gap, fuel);
            && q == At(p, axis, Coordinate(q, axis)) && Coordinate(p, axis) <= Coordinate(q, axis)
            && (forall u :: Coordinate(p, axis) <= u < Coordinate(q, axis) ==> !Clear(blockers, Placed(At(p, axis, u), size), gap))
    decreases fuel
  {
    var hits := Hits(blockers, Placed(p, size), gap);
    if fuel > 0 && hits != [] {
      var wall := OneJump(blockers, size, p, axis, gap);
      var v := Farthest(hits, axis) + gap;
      SlideSkipsNothing(blockers, size, At(p, axis, v), axis, gap, fuel - 1);
      var q := Slide(blockers, size, p, axis, gap, fuel);
      forall u | Coordinate(p, axis) <= u < Coordinate(q, axis)
        ensures !Clear(blockers, Placed(At(p, axis, u), size), gap)
      {
        if u < v {
          assert CloserThan(Placed(At(p, axis, u), size), wall, gap);
        } else {
          assert At(At(p, axis, v), axis, u) == At(p, axis, u);
        }
      }
    }
  }

  /** Every jump retires a blocker for good, so as many jumps as there are blockers still ahead always suffice. */
  lemma {:induction false} EnoughJumpsAreClear(blockers: seq<Rect>, size: Size, p: Point, axis: Axis, gap: real, fuel: nat)
    requires Ahead(blockers, axis, gap, Coordinate(p, axis)) <= fuel
    ensures Clear(blockers, Placed(Slide(blockers, size, p, axis, gap, fuel), size), gap)
    decreases fuel
  {
    HitMembers(blockers, Placed(p, size), gap);
    var hits := Hits(blockers, Placed(p, size), gap);
    if fuel == 0 {
      NothingAheadIsClear(blockers, size, p, axis, gap);
    } else if hits != [] {
      var wall := OneJump(blockers, size, p, axis, gap);
      var v := Farthest(hits, axis) + gap;
      AheadShrinks(blockers, axis, gap, Coordinate(p, axis), v);
      EnoughJumpsAreClear(blockers, size, At(p, axis, v), axis, gap, fuel - 1);
    }
  }

  /** With no more blockers than the cap allows jumps, the slide ends clear of every one of them. */
  lemma SlideEndsClear(blockers: seq<Rect>, size: Size, p: Point, axis: Axis, gap: real, cap: nat)
    requires |blockers| <= cap
    ensures Clear(blockers, Placed(Slide(blockers, size, p, axis, gap, cap), size), gap)
  {
    AheadShrinks(blockers, axis, gap, Coordinate(p, axis), Coordinate(p, axis));
    EnoughJumpsAreClear(blockers, size, p, axis, gap, cap);
  }

  /* ------------------------------------------------------- and the bound is sharp */

  /** A staircase: each blocker is met only once the one before it has been passed. */
  function Staircase(n: nat): seq<Rect> {
    seq(n, i => Rect(0.0, 10.0 * (i as real), 1.0, 10.0))
  }

  lemma StairHit(n: nat, k: nat)
    requires k < n
    ensures var hits := Hits(Staircase(n), Rect(0.0, 10.0 * (k as real), 1.0, 1.0), 0.0);
            hits != [] && Farthest(hits, AlongY) == 10.0 * ((k + 1) as real)
  {
    var here := Rect(0.0, 10.0 * (k as real), 1.0, 1.0);
    var hits := Hits(Staircase(n), here, 0.0);
    HitMembers(Staircase(n), here, 0.0);
    assert Staircase(n)[k] in Staircase(n);
    assert Staircase(n)[k] in hits;
    var far := FarthestIsMax(hits, AlongY);
    var i :| 0 <= i < n && Staircase(n)[i] == far;
    assert i == k;
  }

  lemma {:induction false} StairSlide(n: nat, k: nat, fuel: nat)
    requires k + fuel <= n
    ensures Slide(Staircase(n), Size(1.0, 1.0), Point(0.0, 10.0 * (k as real)), AlongY, 0.0, fuel)
            == Point(0.0, 10.0 * ((k + fuel) as real))
    decreases fuel
  {
    if fuel > 0 {
      StairHit(n, k);
      StairSlide(n, k + 1, fuel - 1);
    }
  }

  /** One blocker more than the cap, and the slide can stop where it still collides: the bound cannot be raised. */
  lemma CapIsSharp(cap: nat)
    ensures |Staircase(cap + 1)| == cap + 1
    ensures !Clear(Staircase(cap + 1),
                   Placed(Slide(Staircase(cap + 1), Size(1.0, 1.0), Point(0.0, 0.0), AlongY, 0.0, cap), Size(1.0, 1.0)), 0.0)
  {
    StairSlide(cap + 1, 0, cap);
    StairHit(cap + 1, cap);
    HitMembers(Staircase(cap + 1), Rect(0.0, 10.0 * (cap as real), 1.0, 1.0), 0.0);
  }

  /** So 501 blockers can be one too many for the program. */
  lemma OneMoreThanFiveHundred()
    ensures |Staircase(501)| == 501
    ensures !Clear(Staircase(501),
                   Placed(Slide(Staircase(501), Size(1.0, 1.0), Point(0.0, 0.0), AlongY, 0.0, SLIDE_CAP), Size(1.0, 1.0)), 0.0)
  {
    CapIsSharp(500);
  }

  /* ----------------------------------------------------------------- the algorithm */

  method CollectHits(blockers: seq<Rect>, here: Rect, gap: real) returns (hits: seq<Rect>)
    ensures hits == Hits(blockers, here, gap)
  {
    hits := [];
    for i := 0 to |blockers|
      invariant hits == Hits(blockers[..i], here, gap)
    {
      assert blockers[..i + 1][..i] == blockers[..i];
      if CloserThan(here, blockers[i], gap) {
        hits := hits + [blockers[i]];
      }
    }
    assert blockers[..|blockers|] == blockers;
  }

  method MaxEdge(rects: seq<Rect>, axis: Axis) returns (edge: real)
    requires rects != []
    ensures edge == Farthest(rects, axis)
  {
    edge := FarEdge(rects[0], axis);
    assert rects[..1] == [rects[0]];
    for i := 1 to |rects|
      invariant edge == Farthest(rects[..i], axis)
    {
      assert rects[..i + 1][..i] == rects[..i];
      edge := Max(edge, FarEdge(rects[i], axis));
    }
    assert rects[..|rects|] == rects;
  }

  method SlideClear(blockers: seq<Rect>, size: Size, start: Point, axis: Axis, gap: real) returns (p: Point, moved: bool)
    ensures p == Slide(blockers, size, start, axis, gap, SLIDE_CAP)
    ensures |blockers| <= SLIDE_CAP ==> Clear(blockers, Placed(p, size), gap)
    ensures p == At(start, axis, Coordinate(p, axis)) && Coordinate(start, axis) <= Coordinate(p, axis)
    ensures forall u :: Coordinate(start, axis) <= u < Coordinate(p, axis) ==> !Clear(blockers, Placed(At(start, axis, u), size), gap)
    ensures moved <==> p != start
  {
    SlideSkipsNothing(blockers, size, start, axis, gap, SLIDE_CAP);
    if |blockers| <= SLIDE_CAP {
      SlideEndsClear(blockers, size, start, axis, gap, SLIDE_CAP);
    }
    p := start;
    for iteration := 0 to SLIDE_CAP
      invariant Slide(blockers, size, start, axis, gap, SLIDE_CAP) == Slide(blockers, size, p, axis, gap, SLIDE_CAP - iteration)
      invariant p == At(start, axis, Coordinate(p, axis))
      invariant if iteration == 0 then p == start else Coordinate(start, axis) < Coordinate(p, axis)
    {
      var hits := CollectHits(blockers, Placed(p, size), gap);
      if hits == [] {
        return p, p.x != start.x || p.y != start.y;
      }
      var wall := OneJump(blockers, size, p, axis, gap);
      var edge := MaxEdge(hits, axis);
      if axis == AlongY {
        p := p.(y := edge + gap);
      } else {
        p := p.(x := edge + gap);
      }
    }
    return p, true;
  }

  datatype Direction = ToBelow | ToRight | ToAny

  datatype FreeRegion = FreeRegion(rect: Rect, travel: real, below: bool)

  /** Every spot up to `travel` along the axis is blocked. */
  ghost predicate BlockedUpTo(blockers: seq<Rect>, size: Size, anchor: Point, axis: Axis, gap: real, travel: real) {
    forall u :: Coordinate(anchor, axis) <= u < Coordinate(anchor, axis) + travel ==>
      !Clear(blockers, Placed(At(anchor, axis, u), size), gap)
  }

  /** Along a single axis the straight-line distance is the difference of the one coordinate that moved. */
  method FindFreeRegion(blockers: seq<Rect>, size: Size, anchor: Point, direction: Direction, gap: real) returns (region: FreeRegion)
    ensures |blockers| <= SLIDE_CAP ==> Clear(blockers, region.rect, gap)
    ensures region.rect == Placed(if region.below then At(anchor, AlongY, anchor.y + region.travel) else At(anchor, AlongX, anchor.x + region.travel), size)
    ensures region.travel >= 0.0
    ensures (direction == ToBelow ==> region.below) && (direction == ToRight ==> !region.below)
    ensures BlockedUpTo(blockers, size, anchor, if region.below then AlongY else AlongX, gap, region.travel)
    ensures direction == ToAny ==> BlockedUpTo(blockers, size, anchor, if region.below then AlongX else AlongY, gap, region.travel)
    ensures Clear(blockers, Placed(anchor, size), gap) ==> region.travel == 0.0
  {
    var below, _ := SlideClear(blockers, size, anchor, AlongY, gap);
    var right, _ := SlideClear(blockers, size, anchor, AlongX, gap);
    var belowTravel, rightTravel := below.y - anchor.y, right.x - anchor.x;
    var useBelow := direction == ToBelow || (direction == ToAny && belowTravel <= rightTravel);
    var chosen := if useBelow then below else right;
    region := FreeRegion(Placed(chosen, size), if useBelow then belowTravel else rightTravel, useBelow);
    if region.travel > 0.0 {
      assert At(anchor, AlongX, anchor.x) == anchor && At(anchor, AlongY, anchor.y) == anchor;
    }
  }
}
