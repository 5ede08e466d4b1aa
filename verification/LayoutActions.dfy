/** The layout actions as the program runs them: blockers, placement, and verification of what was written. */
module LayoutActions {
  import opened Wrappers
  import opened Geometry
  import opened Sliding
  import opened Arrange
  import opened LayoutTree
  import opened LayoutBounds
  import opened Containment
  import opened Placement
  import opened Certification
  import opened LayoutBuilder

  datatype Failure = UnknownObject(id: Id) | RelativeToItself | FollowsItsEnds(id: Id) | Locked(id: Id) | MovesWithContainer(id: Id)

  method DescendantsOf(order: seq<Shape>, children: map<Id, seq<Shape>>, parent: Id, depth: nat) returns (ids: set<Id>)
    requires depth <= DEPTH_CAP + 1 && forall id :: ListOf(children, id) == Children(order, id)
    ensures ids == Descend(order, parent, depth)
    decreases DEPTH_CAP + 1 - depth
  {
    ids := {};
    if depth > DEPTH_CAP {
      return;
    }
    var list := ListOf(children, parent);
    for i := 0 to |list|
      invariant ids + DescendEach(order, list[i..], depth) == DescendEach(order, list, depth)
    {
      assert list[i..][0] == list[i] && list[i..][1..] == list[i + 1..];
      var deeper := DescendantsOf(order, children, list[i].id, depth + 1);
      ids := ids + {list[i].id} + deeper;
    }
  }

  method AncestorsOf(order: seq<Shape>, pageId: Id, id: Id) returns (ids: set<Id>)
    ensures ids == Ancestors(order, pageId, id, DEPTH_CAP)
  {
    ids := {};
    var current := Find(order, id);
    ghost var here := id;
    var depth: nat := 0;
    while current.Some? && depth < DEPTH_CAP && current.value.parentId != pageId
      invariant depth <= DEPTH_CAP
      invariant current == Find(order, here)
      invariant ids + Ancestors(order, pageId, here, DEPTH_CAP - depth) == Ancestors(order, pageId, id, DEPTH_CAP)
      decreases DEPTH_CAP - depth
    {
      var parent := current.value.parentId;
      ids := ids + {parent};
      current := Find(order, parent);
      here := parent;
      depth := depth + 1;
    }
  }

  method KinOfShape(l: Layout, children: map<Id, seq<Shape>>, pageId: Id, id: Id) returns (skip: set<Id>)
    requires forall x :: ListOf(children, x) == Children(l.walked.order, x)
    ensures skip == Kin(l, pageId, id)
  {
    var inner := DescendantsOf(l.walked.order, children, id, 0);
    var outer := AncestorsOf(l.walked.order, pageId, id);
    skip := {id} + inner + outer;
  }

  /** What a moving shape must avoid: every box except the moving shapes and their kin. */
  method BlockersFor(l: Layout, pageId: Id, moving: seq<Id>) returns (blockers: seq<Rect>)
    ensures blockers == Blockers(l, pageId, moving)
  {
    var order := l.walked.order;
    var children := GroupByParent(order);
    var skip := {};
    for i := 0 to |moving|
      invariant skip == KinOf(l, pageId, moving[..i])
    {
      assert moving[..i + 1][..i] == moving[..i];
      var kin := KinOfShape(l, children, pageId, moving[i]);
      skip := skip + kin;
    }
    assert moving[..|moving|] == moving;
    blockers := [];
    for i := 0 to |order|
      invariant blockers == Blocking(order[..i], l.bounds, skip)
    {
      assert order[..i + 1][..i] == order[..i];
      var shape := order[i];
      if shape.kind == Box && shape.id !in skip && shape.id in l.bounds {
        blockers := blockers + [l.bounds[shape.id]];
      }
    }
    assert order[..|order|] == order;
  }

  /** Nothing an arrow is: arrows follow what they connect; nor pinned by a person. */
  predicate MayMove(l: Layout, id: Id) {
    var s := Find(l.walked.order, id);
    s.Some? ==> !s.value.kind.Arrow? && !s.value.locked
  }

  /** Listed, each once, neither arrows nor locked, and none together with its own container. */
  ghost predicate Movable(l: Layout, pageId: Id, ids: seq<Id>) {
    && (forall i, j :: 0 <= i < j < |ids| ==> ids[i] != ids[j])
    && (forall id :: id in ids ==> id in l.bounds && MayMove(l, id))
    && (forall id, a :: id in ids && a in ids ==> a !in Ancestors(l.walked.order, pageId, id, DEPTH_CAP))
  }

  ghost predicate MayMoveWith(l: Layout, pageId: Id, ids: seq<Id>, id: Id) {
    MayMove(l, id) && forall a :: a in ids ==> a !in Ancestors(l.walked.order, pageId, id, DEPTH_CAP)
  }

  lemma AllMayMove(l: Layout, pageId: Id, ids: seq<Id>)
    requires forall i, j :: 0 <= i < j < |ids| ==> ids[i] != ids[j]
    requires forall id :: id in ids ==> id in l.bounds
    ensures Movable(l, pageId, ids) <==> forall k :: 0 <= k < |ids| ==> MayMoveWith(l, pageId, ids, ids[k])
  {
    if forall k :: 0 <= k < |ids| ==> MayMoveWith(l, pageId, ids, ids[k]) {
      forall id | id in ids
        ensures MayMoveWith(l, pageId, ids, id)
      {
        var k :| 0 <= k < |ids| && ids[k] == id;
      }
    }
  }

  /** Why the shapes may not be moved: which one, and which of the rules it breaks. */
  ghost predicate Prevents(l: Layout, pageId: Id, ids: seq<Id>, references: seq<Id>, failure: Failure) {
    match failure
    case UnknownObject(id) => id in ids + references && id !in l.bounds
    case RelativeToItself => false
    case FollowsItsEnds(id) => id in ids && Find(l.walked.order, id).Some? && Find(l.walked.order, id).value.kind.Arrow?
    case Locked(id) => id in ids && Find(l.walked.order, id).Some? && Find(l.walked.order, id).value.locked
    case MovesWithContainer(id) => id in ids && exists a :: a in ids && a in Ancestors(l.walked.order, pageId, id, DEPTH_CAP)
  }

  method CheckOne(l: Layout, pageId: Id, ids: seq<Id>, id: Id) returns (failure: Option<Failure>)
    requires id in ids
    ensures failure.Some? ==> Prevents(l, pageId, ids, [], failure.value)
    ensures failure.None? <==> MayMoveWith(l, pageId, ids, id)
  {
    var shape := Find(l.walked.order, id);
    var containers := AncestorsOf(l.walked.order, pageId, id);
    if shape.Some? && shape.value.kind.Arrow? {
      return Some(FollowsItsEnds(id));
    }
    if shape.Some? && shape.value.locked {
      return Some(Locked(id));
    }
    for j := 0 to |ids|
      invariant forall k :: 0 <= k < j ==> ids[k] !in containers
    {
      if ids[j] in containers {
        assert ids[j] in ids;
        return Some(MovesWithContainer(id));
      }
    }
    return None;
  }

  /** Every id and every reference is on the page, and the ids can be moved together. */
  method CheckMovable(l: Layout, pageId: Id, ids: seq<Id>, references: seq<Id>) returns (failure: Option<Failure>)
    requires forall i, j :: 0 <= i < j < |ids| ==> ids[i] != ids[j]
    ensures failure.None? <==> Movable(l, pageId, ids) && forall id :: id in references ==> id in l.bounds
    ensures failure.Some? ==> Prevents(l, pageId, ids, references, failure.value)
  {
    var all := ids + references;
    for i := 0 to |all|
      invariant forall k :: 0 <= k < i ==> all[k] in l.bounds
    {
      if all[i] !in l.bounds {
        assert all[i] in all;
        return Some(UnknownObject(all[i]));
      }
    }
    forall id | id in ids || id in references
      ensures id in l.bounds
    {
      assert id in all;
    }
    AllMayMove(l, pageId, ids);
    for i := 0 to |ids|
      invariant forall k :: 0 <= k < i ==> MayMoveWith(l, pageId, ids, ids[k])
    {
      assert ids[i] in ids;
      failure := CheckOne(l, pageId, ids, ids[i]);
      if failure.Some? {
        return;
      }
    }
    return None;
  }

  /** The one move that puts the shape beside its target, or why it cannot be placed. */
  method PlaceBeside(l: Layout, pageId: Id, side: Side, id: Id, targetId: Id, gap: real, align: Align) returns (r: Result<Move, Failure>)
    ensures r == if id !in l.bounds then Err(UnknownObject(id))
                 else if targetId !in l.bounds then Err(UnknownObject(targetId))
                 else if id == targetId then Err(RelativeToItself)
                 else var d := Needed(l, pageId, side, id, targetId, gap, align); Ok(Move(id, d.x, d.y))
    ensures r.Ok? ==>
              StandsBeside(Blockers(l, pageId, [id]), l.bounds[targetId], side, Shift(l.bounds[id], r.value.dx, r.value.dy), gap, align)
  {
    if id !in l.bounds {
      return Err(UnknownObject(id));
    }
    if targetId !in l.bounds {
      return Err(UnknownObject(targetId));
    }
    if id == targetId {
      return Err(RelativeToItself);
    }
    var move := MoveToLanding(l, pageId, side, id, targetId, gap, align);
    return Ok(move);
  }

  method MoveToLanding(l: Layout, pageId: Id, side: Side, id: Id, targetId: Id, gap: real, align: Align) returns (move: Move)
    requires id in l.bounds && targetId in l.bounds
    ensures var d := Needed(l, pageId, side, id, targetId, gap, align); move == Move(id, d.x, d.y)
    ensures StandsBeside(Blockers(l, pageId, [id]), l.bounds[targetId], side, Shift(l.bounds[id], move.dx, move.dy), gap, align)
  {
    var landing := FindLanding(l, pageId, side, id, targetId, gap, align);
    move := Move(id, landing.x - l.bounds[id].x, landing.y - l.bounds[id].y);
    NeededIsBeside(l, pageId, side, id, targetId, gap, align, Needed(l, pageId, side, id, targetId, gap, align));
  }

  method FindLanding(l: Layout, pageId: Id, side: Side, id: Id, targetId: Id, gap: real, align: Align) returns (landing: Rect)
    requires id in l.bounds && targetId in l.bounds
    ensures landing == Landing(l, pageId, side, id, targetId, gap, align)
  {
    var box, target := l.bounds[id], l.bounds[targetId];
    var blockers := BlockersFor(l, pageId, [id]);
    var cleared, _ := SlideClear(blockers, Size(box.w, box.h), Wanted(side, box, target, gap, align), SlideAxis(side), gap);
    landing := Placed(cleared, Size(box.w, box.h));
  }

  /** Everything but arrows standing directly on the page. */
  function OnThePage(order: seq<Shape>, b: map<Id, Rect>, pageId: Id): seq<Rect>
    decreases |order|
  {
    if order == [] then []
    else
      var front, s := OnThePage(order[..|order| - 1], b, pageId), order[|order| - 1];
      if !s.kind.Arrow? && s.parentId == pageId && s.id in b then front + [b[s.id]] else front
  }

  method PageExtent(l: Layout, pageId: Id) returns (extent: Option<Rect>)
    ensures var rects := OnThePage(l.walked.order, l.bounds, pageId);
            extent == if rects == [] then None else Some(Union(rects))
  {
    var order := l.walked.order;
    var rects: seq<Rect> := [];
    for i := 0 to |order|
      invariant rects == OnThePage(order[..i], l.bounds, pageId)
    {
      assert order[..i + 1][..i] == order[..i];
      if !order[i].kind.Arrow? && order[i].parentId == pageId && order[i].id in l.bounds {
        rects := rects + [l.bounds[order[i].id]];
      }
    }
    assert order[..|order|] == order;
    extent := RectUnion(rects);
  }

  /** Where a region is first wanted: where asked, or else just below everything standing on the page. */
  function Anchor(l: Layout, pageId: Id, asked: Option<Point>, gap: real): Point {
    var rects := OnThePage(l.walked.order, l.bounds, pageId);
    if asked.Some? then asked.value
    else if rects == [] then Point(0.0, 0.0)
    else Point(Union(rects).x, Bottom(Union(rects)) + gap)
  }

  lemma {:induction false} OnThePageMembers(order: seq<Shape>, b: map<Id, Rect>, pageId: Id, s: Shape)
    requires s in order && s.parentId == pageId && s.id in b && !s.kind.Arrow?
    ensures b[s.id] in OnThePage(order, b, pageId)
    decreases |order|
  {
    if s != order[|order| - 1] {
      OnThePageMembers(order[..|order| - 1], b, pageId, s);
    }
  }

  lemma {:induction false} BlockingIsListed(order: seq<Shape>, b: map<Id, Rect>, skip: set<Id>, r: Rect) returns (s: Shape)
    requires r in Blocking(order, b, skip)
    ensures s in order && s.kind == Box && s.id !in skip && s.id in b && b[s.id] == r
    decreases |order|
  {
    var last := order[|order| - 1];
    if r in Blocking(order[..|order| - 1], b, skip) {
      s := BlockingIsListed(order[..|order| - 1], b, skip, r);
    } else {
      s := last;
    }
  }

  /** Reaches below the extent, into the room a region of this size takes up just below it. */
  predicate HangsBelow(extent: Rect, size: Size, gap: real, r: Rect) {
    && Bottom(extent) < Bottom(r) && r.y < Bottom(extent) + size.h + 2.0 * gap
    && r.x - (extent.x + size.w) < gap && extent.x - Right(r) < gap
  }

  /** A box inside another shape, that the extent does not count. */
  ghost predicate NestedBox(l: Layout, pageId: Id, moving: seq<Id>, s: Shape) {
    s in l.walked.order && s.kind == Box && s.parentId != pageId && s.id in l.bounds && s.id !in KinOf(l, pageId, moving)
  }

  lemma BelowMeansBelow(extent: Rect, size: Size, gap: real, r: Rect)
    ensures CloserThan(Placed(Point(extent.x, Bottom(extent) + gap), size), r, gap) <==> HangsBelow(extent, size, gap, r)
  {
  }

  lemma InsideDoesNotHang(extent: Rect, size: Size, gap: real, r: Rect)
    requires Inside(r, extent)
    ensures !HangsBelow(extent, size, gap, r)
  {
  }

  /**
   * The default anchor is clear of everything directly on the page, but the extent does not count what is inside
   * a shape: the anchor is clear exactly when nothing inside a shape hangs below the extent, near the region.
   */
  lemma DefaultAnchorIsClear(l: Layout, pageId: Id, size: Size, gap: real, moving: seq<Id>)
    requires OnThePage(l.walked.order, l.bounds, pageId) != []
    ensures var extent := Union(OnThePage(l.walked.order, l.bounds, pageId));
            Clear(Blockers(l, pageId, moving), Placed(Anchor(l, pageId, None, gap), size), gap) <==>
            forall s :: NestedBox(l, pageId, moving, s) ==> !HangsBelow(extent, size, gap, l.bounds[s.id])
  {
    var order, skip := l.walked.order, KinOf(l, pageId, moving);
    var box, extent := Placed(Anchor(l, pageId, None, gap), size), Union(OnThePage(order, l.bounds, pageId));
    forall r: Rect
      ensures CloserThan(box, r, gap) <==> HangsBelow(extent, size, gap, r)
    {
      BelowMeansBelow(extent, size, gap, r);
    }
    forall s | NestedBox(l, pageId, moving, s)
      ensures l.bounds[s.id] in Blockers(l, pageId, moving)
    {
      BlockingMember(order, l.bounds, skip, s);
    }
    forall r | r in Blockers(l, pageId, moving) && HangsBelow(extent, size, gap, r)
      ensures exists s :: NestedBox(l, pageId, moving, s) && l.bounds[s.id] == r
    {
      var s := BlockingIsListed(order, l.bounds, skip, r);
      if s.parentId == pageId {
        OnThePageMembers(order, l.bounds, pageId, s);
        UnionIsLeastBox(OnThePage(order, l.bounds, pageId));
        InsideDoesNotHang(extent, size, gap, r);
        assert false;
      }
      assert NestedBox(l, pageId, moving, s);
    }
  }

  /** Whatever is listed and hangs in no arrow hangs in something that stands on the page. */
  lemma {:induction false} SomethingStands(shapes: seq<Shape>, pageId: Id, l: Layout, s: Shape, depth: nat)
    requires IsTree(EnterShape, l.walked, shapes, pageId) && OnlyListed(l.walked, pageId) && forall x :: x in l.walked.order ==> x.id in l.bounds
    requires forall a, x :: a in l.walked.order && a.kind.Arrow? && x in l.walked.order ==> x.parentId != a.id
    requires s in l.walked.order && !s.kind.Arrow? && s.id in l.walked.depth && l.walked.depth[s.id] == depth
    ensures OnThePage(l.walked.order, l.bounds, pageId) != []
    decreases depth
  {
    assert Hangs(EnterShape, s, l.walked, pageId);
    if s.parentId == pageId {
      OnThePageMembers(l.walked.order, l.bounds, pageId, s);
    } else {
      var p := ListedShape(l.walked.order, s.parentId);
      assert Hangs(EnterShape, p, l.walked, pageId);
      SomethingStands(shapes, pageId, l, p, depth - 1);
    }
  }

  /** Where nothing but arrows stands on the page, and nothing is in an arrow, there is nothing in the way. */
  lemma EmptyExtentIsClear(shapes: seq<Shape>, pageId: Id, moving: seq<Id>)
    requires UniqueIds(shapes, pageId) && forall a, x :: a in shapes && a.kind.Arrow? && x in shapes ==> x.parentId != a.id
    requires var l := ComputeLayout(shapes, pageId); OnThePage(l.walked.order, l.bounds, pageId) == []
    ensures Blockers(ComputeLayout(shapes, pageId), pageId, moving) == []
  {
    var l := ComputeLayout(shapes, pageId);
    LayoutIsSettled(shapes, pageId);
    WalkedPageIsTree(EnterShape, shapes, pageId);
    WalkedPageIsComplete(EnterShape, shapes, pageId);
    if Blockers(l, pageId, moving) != [] {
      var s := BlockingIsListed(l.walked.order, l.bounds, KinOf(l, pageId, moving), Blockers(l, pageId, moving)[0]);
      assert Hangs(EnterShape, s, l.walked, pageId);
      SomethingStands(shapes, pageId, l, s, l.walked.depth[s.id]);
      assert false;
    }
  }

  /** The nearest clear region in the asked direction from the anchor, or in the better of the two. */
  method FindRegion(l: Layout, pageId: Id, size: Size, asked: Option<Point>, direction: Direction, gap: real, moving: seq<Id>)
    returns (region: FreeRegion)
    ensures var blockers, anchor := Blockers(l, pageId, moving), Anchor(l, pageId, asked, gap);
            && (|blockers| <= SLIDE_CAP ==> Clear(blockers, region.rect, gap))
            && region.rect == Placed(if region.below then At(anchor, AlongY, anchor.y + region.travel) else At(anchor, AlongX, anchor.x + region.travel), size)
            && (direction == ToBelow ==> region.below) && (direction == ToRight ==> !region.below)
            && (Clear(blockers, Placed(anchor, size), gap) ==> region.travel == 0.0)
            && BlockedUpTo(blockers, size, anchor, if region.below then AlongY else AlongX, gap, region.travel)
            && (direction == ToAny ==> BlockedUpTo(blockers, size, anchor, if region.below then AlongX else AlongY, gap, region.travel))
  {
    var blockers := BlockersFor(l, pageId, moving);
    var extent := PageExtent(l, pageId);
    var anchor := match asked
      case Some(p) => p
      case None => if extent.None? then Point(0.0, 0.0) else Point(extent.value.x, Bottom(extent.value) + gap);
    region := FindFreeRegion(blockers, size, anchor, direction, gap);
  }

  /* -------------------------------------------------------------------- verification */

  /** The edge or centre line an alignment compares. */
  datatype AlignAxis = Across(align: Align) | Down(align: Align)

  function LineOf(r: Rect, axis: AlignAxis): real {
    match axis
    case Across(align) => AcrossLine(r, align)
    case Down(align) => DownLine(r, align)
  }

  datatype Alignment = Alignment(axis: AlignAxis, ids: seq<Id>)

  const ALIGNMENT_TOLERANCE: int := 2

  /** Rounded to two decimals, the deviation is at most the tolerance: that is, it is less than 2.005. */
  ghost predicate Aligned(l: Layout, alignment: Option<Alignment>) {
    alignment.Some? ==> forall a, b :: a in alignment.value.ids && b in alignment.value.ids && a in l.bounds && b in l.bounds ==>
      LineOf(l.bounds[a], alignment.value.axis) - LineOf(l.bounds[b], alignment.value.axis) < 2.005
  }

  /** How far the lines of the listed shapes on the page are apart at most, if there are any. */
  method MaxDeviation(l: Layout, axis: AlignAxis, ids: seq<Id>) returns (deviation: Option<real>)
    ensures deviation.None? <==> forall a :: a in ids ==> a !in l.bounds
    ensures deviation.Some? ==>
              && (forall a, b :: a in ids && b in ids && a in l.bounds && b in l.bounds ==>
                    LineOf(l.bounds[a], axis) - LineOf(l.bounds[b], axis) <= deviation.value)
              && (exists a, b :: a in ids && b in ids && a in l.bounds && b in l.bounds &&
                    LineOf(l.bounds[a], axis) - LineOf(l.bounds[b], axis) == deviation.value)
  {
    deviation := None;
    var least, most := 0.0, 0.0;
    ghost var low, high: Id := "", "";
    for i := 0 to |ids|
      invariant deviation.None? <==> forall a :: a in ids[..i] ==> a !in l.bounds
      invariant deviation.Some? ==>
        && low in ids[..i] && low in l.bounds && least == LineOf(l.bounds[low], axis)
        && high in ids[..i] && high in l.bounds && most == LineOf(l.bounds[high], axis) && deviation.value == most - least
        && (forall a :: a in ids[..i] && a in l.bounds ==> least <= LineOf(l.bounds[a], axis) <= most)
    {
      assert ids[..i + 1] == ids[..i] + [ids[i]];
      if ids[i] in l.bounds {
        var line := LineOf(l.bounds[ids[i]], axis);
        if deviation.None? || line < least {
          least, low := line, ids[i];
        }
        if deviation.None? || line > most {
          most, high := line, ids[i];
        }
        deviation := Some(most - least);
      }
    }
    assert ids[..|ids|] == ids;
  }

  method CheckAlignment(l: Layout, alignment: Option<Alignment>) returns (ok: bool)
    ensures ok <==> Aligned(l, alignment)
  {
    if alignment.None? {
      return true;
    }
    if |alignment.value.ids| <= 1 {
      return true;
    }
    var deviation := MaxDeviation(l, alignment.value.axis, alignment.value.ids);
    return deviation.None? || (deviation.value * 100.0 + 0.5).Floor <= ALIGNMENT_TOLERANCE * 100;
  }

  datatype Verification = Verification(overlaps: seq<(Id, Id)>, tooClose: seq<(Id, Id)>, minimum: Option<real>, spacingOk: bool, alignmentOk: bool)

  /** The verdict on one pair. */
  ghost predicate Judged(l: Layout, pageId: Id, touched: seq<Id>, requested: Option<real>, a: Shape, o: Shape, overlapping: bool, crowded: bool) {
    && (Overlaps(l, pageId, a, o) ==> overlapping)
    && (requested.Some? && o.id in touched && Crowds(l, pageId, a, o, requested.value) ==> crowded)
  }

  /** What the comparisons made so far have settled about shape `a` and the first `n` shapes of the page. */
  ghost predicate Checked(l: Layout, pageId: Id, touched: seq<Id>, requested: Option<real>, a: Shape, n: nat, overlapping: bool, crowded: bool)
    requires n <= |l.walked.order|
  {
    forall j :: 0 <= j < n ==>
      Judged(l, pageId, touched, requested, a, l.walked.order[j], overlapping, crowded)
  }

  /** Nothing is reported without cause. */
  ghost predicate Justified(l: Layout, pageId: Id, touched: seq<Id>, requested: Option<real>, overlapping: bool, crowded: bool) {
    && (overlapping ==> !NoOverlap(l, pageId, touched))
    && (crowded ==> requested.Some? && !NoneCrowds(l, pageId, touched, requested.value))
  }

  /** A pair is marked as reported, in both orders, only for an overlap or for standing too close. */
  ghost predicate Reported(l: Layout, reported: set<(Id, Id)>, overlapping: bool, crowded: bool) {
    forall p :: p in reported ==>
      && p.0 in l.bounds && p.1 in l.bounds
      && if OverlapArea(l.bounds[p.0], l.bounds[p.1]) > 1.0 then overlapping else crowded
  }

  lemma AreaIsSymmetric(a: Rect, b: Rect)
    ensures OverlapArea(a, b) == OverlapArea(b, a)
  {
    assert Min(Right(a), Right(b)) == Min(Right(b), Right(a)) && Max(a.x, b.x) == Max(b.x, a.x);
    assert Min(Bottom(a), Bottom(b)) == Min(Bottom(b), Bottom(a)) && Max(a.y, b.y) == Max(b.y, a.y);
  }

  lemma ReportPair(l: Layout, reported: set<(Id, Id)>, a: Id, o: Id, overlapping: bool, crowded: bool, overlapping': bool, crowded': bool)
    requires Reported(l, reported, overlapping, crowded) && (overlapping ==> overlapping') && (crowded ==> crowded')
    requires a in l.bounds && o in l.bounds && if OverlapArea(l.bounds[a], l.bounds[o]) > 1.0 then overlapping' else crowded'
    ensures Reported(l, reported + {(a, o), (o, a)}, overlapping', crowded')
  {
    AreaIsSymmetric(l.bounds[a], l.bounds[o]);
  }

  lemma Overlapping(l: Layout, pageId: Id, touched: seq<Id>, a: Shape, o: Shape)
    requires a in l.walked.order && o in l.walked.order && a.id in touched && Overlaps(l, pageId, a, o)
    ensures !NoOverlap(l, pageId, touched)
  {
  }

  lemma Crowding(l: Layout, pageId: Id, touched: seq<Id>, a: Shape, o: Shape, requested: real)
    requires a in l.walked.order && o in l.walked.order && a.id in touched && o.id in touched && Crowds(l, pageId, a, o, requested)
    ensures !NoneCrowds(l, pageId, touched, requested)
  {
  }

  method CompareOne(l: Layout, pageId: Id, touched: seq<Id>, requested: Option<real>, item: Shape, other: Shape, skip: set<Id>,
                    seen: set<(Id, Id)>, overlaps0: seq<(Id, Id)>, tooClose0: seq<(Id, Id)>)
    returns (reported: set<(Id, Id)>, overlaps: seq<(Id, Id)>, tooClose: seq<(Id, Id)>)
    requires item in l.walked.order && item.kind == Box && item.id in touched && skip == Kin(l, pageId, item.id)
    requires other in l.walked.order && item.id in l.bounds && other.id in l.bounds
    requires Justified(l, pageId, touched, requested, overlaps0 != [], tooClose0 != []) && Reported(l, seen, overlaps0 != [], tooClose0 != [])
    ensures Justified(l, pageId, touched, requested, overlaps != [], tooClose != []) && Reported(l, reported, overlaps != [], tooClose != [])
    ensures overlaps0 <= overlaps && tooClose0 <= tooClose
    ensures Judged(l, pageId, touched, requested, item, other, overlaps != [], tooClose != [])
  {
    reported, overlaps, tooClose := seen, overlaps0, tooClose0;
    if other.kind != Box || other.id in skip || (item.id, other.id) in reported {
      return;
    }
    var a, b := l.bounds[item.id], l.bounds[other.id];
    if OverlapArea(a, b) > 1.0 {
      Overlapping(l, pageId, touched, item, other);
      ReportPair(l, reported, item.id, other.id, overlaps != [], tooClose != [], true, tooClose != []);
      reported := reported + {(item.id, other.id), (other.id, item.id)};
      overlaps := overlaps + [(item.id, other.id)];
    } else if requested.Some? && GapBetween(a, b) < requested.value - SPACING_TOLERANCE && other.id in touched {
      Crowding(l, pageId, touched, item, other, requested.value);
      ReportPair(l, reported, item.id, other.id, overlaps != [], tooClose != [], overlaps != [], true);
      reported := reported + {(item.id, other.id), (other.id, item.id)};
      tooClose := tooClose + [(item.id, other.id)];
    }
  }

  method CompareWithAll(l: Layout, pageId: Id, touched: seq<Id>, requested: Option<real>, item: Shape, skip: set<Id>,
                        seen: set<(Id, Id)>, overlaps0: seq<(Id, Id)>, tooClose0: seq<(Id, Id)>)
    returns (reported: set<(Id, Id)>, overlaps: seq<(Id, Id)>, tooClose: seq<(Id, Id)>)
    requires item in l.walked.order && item.kind == Box && item.id in touched && skip == Kin(l, pageId, item.id)
    requires forall s :: s in l.walked.order ==> s.id in l.bounds
    requires Justified(l, pageId, touched, requested, overlaps0 != [], tooClose0 != []) && Reported(l, seen, overlaps0 != [], tooClose0 != [])
    ensures Justified(l, pageId, touched, requested, overlaps != [], tooClose != []) && Reported(l, reported, overlaps != [], tooClose != [])
    ensures overlaps0 <= overlaps && tooClose0 <= tooClose
    ensures Checked(l, pageId, touched, requested, item, |l.walked.order|, overlaps != [], tooClose != [])
  {
    reported, overlaps, tooClose := seen, overlaps0, tooClose0;
    for j := 0 to |l.walked.order|
      invariant Justified(l, pageId, touched, requested, overlaps != [], tooClose != []) && Reported(l, reported, overlaps != [], tooClose != [])
      invariant overlaps0 <= overlaps && tooClose0 <= tooClose
      invariant Checked(l, pageId, touched, requested, item, j, overlaps != [], tooClose != [])
    {
      ghost var were, crowd := overlaps, tooClose;
      reported, overlaps, tooClose := CompareOne(l, pageId, touched, requested, item, l.walked.order[j], skip, reported, overlaps, tooClose);
      StillChecked(l, pageId, touched, requested, item, j, were != [], crowd != [], overlaps != [], tooClose != []);
    }
  }

  lemma StillChecked(l: Layout, pageId: Id, touched: seq<Id>, requested: Option<real>, a: Shape, n: nat,
                     overlapping: bool, crowded: bool, overlapping': bool, crowded': bool)
    requires n < |l.walked.order| && Checked(l, pageId, touched, requested, a, n, overlapping, crowded)
    requires (overlapping ==> overlapping') && (crowded ==> crowded')
    requires Judged(l, pageId, touched, requested, a, l.walked.order[n], overlapping', crowded')
    ensures Checked(l, pageId, touched, requested, a, n + 1, overlapping', crowded')
  {
  }

  method MinimumGap(l: Layout, pairs: seq<(Id, Id)>) returns (minimum: Option<real>)
    ensures minimum.None? <==> forall p :: p in pairs ==> p.0 !in l.bounds || p.1 !in l.bounds
    ensures minimum.Some? ==>
              && (forall p :: p in pairs && p.0 in l.bounds && p.1 in l.bounds ==> minimum.value <= GapBetween(l.bounds[p.0], l.bounds[p.1]))
              && (exists p :: p in pairs && p.0 in l.bounds && p.1 in l.bounds && minimum.value == GapBetween(l.bounds[p.0], l.bounds[p.1]))
  {
    minimum := None;
    for i := 0 to |pairs|
      invariant minimum.None? <==> forall p :: p in pairs[..i] ==> p.0 !in l.bounds || p.1 !in l.bounds
      invariant minimum.Some? ==>
        && (forall p :: p in pairs[..i] && p.0 in l.bounds && p.1 in l.bounds ==> minimum.value <= GapBetween(l.bounds[p.0], l.bounds[p.1]))
        && (exists p :: p in pairs[..i] && p.0 in l.bounds && p.1 in l.bounds && minimum.value == GapBetween(l.bounds[p.0], l.bounds[p.1]))
    {
      assert pairs[..i + 1] == pairs[..i] + [pairs[i]];
      var (a, b) := pairs[i];
      if a in l.bounds && b in l.bounds {
        var gap := GapBetween(l.bounds[a], l.bounds[b]);
        minimum := Some(if minimum.Some? then Min(minimum.value, gap) else gap);
      }
    }
    assert pairs[..|pairs|] == pairs;
  }

  /** Everything the page has to say about the shape with this id is settled. */
  ghost predicate CheckedAll(l: Layout, pageId: Id, touched: seq<Id>, requested: Option<real>, id: Id, overlapping: bool, crowded: bool) {
    forall a :: a in l.walked.order && a.id == id ==> Checked(l, pageId, touched, requested, a, |l.walked.order|, overlapping, crowded)
  }

  ghost predicate FirstChecked(l: Layout, pageId: Id, touched: seq<Id>, requested: Option<real>, n: nat, overlapping: bool, crowded: bool)
    requires n <= |touched|
  {
    forall k :: 0 <= k < n ==> CheckedAll(l, pageId, touched, requested, touched[k], overlapping, crowded)
  }

  /** What has been settled stays settled, and the next one with it. */
  lemma FirstStayChecked(l: Layout, pageId: Id, touched: seq<Id>, requested: Option<real>, n: nat, overlapping: bool, crowded: bool, overlapping': bool, crowded': bool)
    requires n < |touched| && FirstChecked(l, pageId, touched, requested, n, overlapping, crowded)
    requires (overlapping ==> overlapping') && (crowded ==> crowded') && CheckedAll(l, pageId, touched, requested, touched[n], overlapping', crowded')
    ensures FirstChecked(l, pageId, touched, requested, n + 1, overlapping', crowded')
  {
    forall k | 0 <= k < n
      ensures CheckedAll(l, pageId, touched, requested, touched[k], overlapping', crowded')
    {
      assert CheckedAll(l, pageId, touched, requested, touched[k], overlapping, crowded);
    }
  }

  method VerifyTouched(l: Layout, children: map<Id, seq<Shape>>, pageId: Id, touched: seq<Id>, requested: Option<real>, id: Id,
                       seen: set<(Id, Id)>, overlaps0: seq<(Id, Id)>, tooClose0: seq<(Id, Id)>)
    returns (reported: set<(Id, Id)>, overlaps: seq<(Id, Id)>, tooClose: seq<(Id, Id)>)
    requires Listed(l.walked.order) && id in touched && forall s :: s in l.walked.order ==> s.id in l.bounds
    requires forall x :: ListOf(children, x) == Children(l.walked.order, x)
    requires Justified(l, pageId, touched, requested, overlaps0 != [], tooClose0 != []) && Reported(l, seen, overlaps0 != [], tooClose0 != [])
    ensures Justified(l, pageId, touched, requested, overlaps != [], tooClose != []) && Reported(l, reported, overlaps != [], tooClose != [])
    ensures overlaps0 <= overlaps && tooClose0 <= tooClose && CheckedAll(l, pageId, touched, requested, id, overlaps != [], tooClose != [])
  {
    reported, overlaps, tooClose := seen, overlaps0, tooClose0;
    var found := Find(l.walked.order, id);
    if found.Some? && found.value.kind == Box {
      var skip := KinOfShape(l, children, pageId, id);
      reported, overlaps, tooClose := CompareWithAll(l, pageId, touched, requested, found.value, skip, reported, overlaps, tooClose);
    }
    forall a | a in l.walked.order && a.id == id
      ensures found == Some(a)
    {
      FoundIsUnique(l.walked.order, a);
    }
  }

  /** Checks a finished layout: does anything touched overlap what it should not, and is it as far apart as asked. */
  method VerifyLayout(l: Layout, pageId: Id, touched: seq<Id>, pairs: seq<(Id, Id)>, requested: Option<real>, alignment: Option<Alignment>)
    returns (v: Verification)
    requires Listed(l.walked.order) && forall s :: s in l.walked.order ==> s.id in l.bounds
    ensures v.overlaps == [] <==> NoOverlap(l, pageId, touched)
    ensures v.spacingOk <==> requested.Some? ==> SpacedOut(l, pageId, touched, pairs, requested.value)
    ensures v.alignmentOk <==> Aligned(l, alignment)
  {
    var order := l.walked.order;
    var children := GroupByParent(order);
    var reported: set<(Id, Id)>, overlaps: seq<(Id, Id)>, tooClose: seq<(Id, Id)> := {}, [], [];
    for i := 0 to |touched|
      invariant Justified(l, pageId, touched, requested, overlaps != [], tooClose != [])
      invariant Reported(l, reported, overlaps != [], tooClose != [])
      invariant FirstChecked(l, pageId, touched, requested, i, overlaps != [], tooClose != [])
    {
      ghost var were, crowd := overlaps, tooClose;
      reported, overlaps, tooClose := VerifyTouched(l, children, pageId, touched, requested, touched[i], reported, overlaps, tooClose);
      FirstStayChecked(l, pageId, touched, requested, i, were != [], crowd != [], overlaps != [], tooClose != []);
    }
    var minimum := MinimumGap(l, pairs);
    EverythingChecked(l, pageId, touched, requested, overlaps != [], tooClose != []);
    var aligned := CheckAlignment(l, alignment);
    var spaced := requested.None? || minimum.None? || minimum.value >= requested.value - SPACING_TOLERANCE;
    v := Verification(overlaps, tooClose, minimum, spaced && tooClose == [], aligned);
  }

  lemma EverythingChecked(l: Layout, pageId: Id, touched: seq<Id>, requested: Option<real>, overlapping: bool, crowded: bool)
    requires Justified(l, pageId, touched, requested, overlapping, crowded)
    requires FirstChecked(l, pageId, touched, requested, |touched|, overlapping, crowded)
    ensures overlapping <==> !NoOverlap(l, pageId, touched)
    ensures crowded <==> requested.Some? && !NoneCrowds(l, pageId, touched, requested.value)
  {
    if !NoOverlap(l, pageId, touched) {
      var a, o :| a in l.walked.order && o in l.walked.order && a.id in touched && Overlaps(l, pageId, a, o);
      var k :| 0 <= k < |touched| && touched[k] == a.id;
      assert CheckedAll(l, pageId, touched, requested, touched[k], overlapping, crowded);
      var j :| 0 <= j < |l.walked.order| && l.walked.order[j] == o;
    }
    if requested.Some? && !NoneCrowds(l, pageId, touched, requested.value) {
      var a, o :| a in l.walked.order && o in l.walked.order && a.id in touched && o.id in touched && Crowds(l, pageId, a, o, requested.value);
      var k :| 0 <= k < |touched| && touched[k] == a.id;
      assert CheckedAll(l, pageId, touched, requested, touched[k], overlapping, crowded);
      var j :| 0 <= j < |l.walked.order| && l.walked.order[j] == o;
    }
  }

  /* ------------------------------------------------------------------------- the action */

  /**
   * Lays the page out, places the shape, writes it back, lays the page out again and verifies it: no overlap is
   * ever reported, and the spacing is reported as kept exactly when that could be foreseen.
   */
  method PlaceAndVerify(shapes: seq<Shape>, pageId: Id, side: Side, id: Id, targetId: Id, gap: real, align: Align)
    returns (r: Result<(seq<Shape>, Verification), Failure>)
    requires UniqueIds(shapes, pageId)
    ensures var l := ComputeLayout(shapes, pageId);
            match r
            case Err(e) => Prevents(l, pageId, [id], [targetId], e) || (e == RelativeToItself && id == targetId)
            case Ok((after, v)) =>
              && Movable(l, pageId, [id]) && id in l.bounds && targetId in l.bounds && id != targetId && Find(l.walked.order, id).Some?
              && var s := Find(l.walked.order, id).value;
              && after == Placing(shapes, pageId, side, s, targetId, gap, align)
              && StandsBeside(Blockers(l, pageId, [id]), l.bounds[targetId], side, Landing(l, pageId, side, id, targetId, gap, align), gap, align)
              && (UnitTurns(shapes) && gap >= SPACING_TOLERANCE && Steered(l.walked, s) && |Blockers(l, pageId, [id])| <= SLIDE_CAP ==>
                    && v.overlaps == []
                    && (v.spacingOk <==> SpacingForeseen(shapes, l, id, targetId, gap, PlacedBy(l, pageId, side, id, targetId, gap, align))))
  {
    var l := ComputeLayout(shapes, pageId);
    var failure := CheckMovable(l, pageId, [id], [targetId]);
    if failure.Some? {
      return Err(failure.value);
    }
    assert id in [id] && targetId in [targetId];
    var placed := PlaceBeside(l, pageId, side, id, targetId, gap, align);
    BoundedIsListed(shapes, pageId, id);
    BoundedIsListed(shapes, pageId, targetId);
    match placed
    case Err(e) => return Err(e);
    case Ok(move) =>
      var record := Find(l.walked.order, id).value;
      LandingIsBeside(l, pageId, side, id, targetId, gap, align);
      var after := ApplyMove(shapes, l, record, move.dx, move.dy);
      var l' := ComputeLayout(after, pageId);
      MovesKeepIds(shapes, pageId, l, record, move.dx, move.dy);
      LayoutIsSettled(after, pageId);
      WalkedPageIsTree(EnterShape, after, pageId);
      var v := VerifyLayout(l', pageId, [id], [(id, targetId)], Some(gap), None);
      ghost var target := Find(l.walked.order, targetId).value;
      if UnitTurns(shapes) && gap >= SPACING_TOLERANCE && Steered(l.walked, record) && |Blockers(l, pageId, [id])| <= SLIDE_CAP {
        PlacementIsCertified(shapes, pageId, side, record, target, gap, align);
      }
      return Ok((after, v));
  }

  /** Exactly the listed shapes have bounds. */
  lemma BoundedIsListed(shapes: seq<Shape>, pageId: Id, id: Id)
    requires UniqueIds(shapes, pageId)
    ensures id in ComputeLayout(shapes, pageId).bounds <==> Lists(ComputeLayout(shapes, pageId).walked.order, id)
  {
    var w := WalkPage(EnterShape, shapes, pageId);
    WalkedPageIsTree(EnterShape, shapes, pageId);
    ShapesAreListed(PAGE_BOXING, w);
    GroupPassListed(shapes, w, |w.order|, ArrowBoxes(PAGE_BOXING, w, w.order, ShapeBoxes(PAGE_BOXING, w, w.order)));
    if Lists(w.order, id) {
      ListedHasBounds(shapes, pageId, id);
    }
  }
}
