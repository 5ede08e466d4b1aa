/** Placing a shape beside another and having the recomputed layout certify where it landed. */
module Certification {
  import opened Geometry
  import opened Sliding
  import opened Arrange
  import opened Transforms
  import opened LayoutTree
  import opened LayoutBounds
  import opened Drift
  import opened Containment
  import opened MovedLayout
  import opened Placement

  const LAYOUT_GAP: real := 64.0
  const SPACING_TOLERANCE: real := 1.0
  const SMALLEST_MOVE: real := 0.001

  /* ----------------------------------------------------------------------- blockers */

  /** A shape, what it contains and what contains it: none of them is in its way. */
  function Kin(l: Layout, pageId: Id, id: Id): set<Id> {
    Inward(l.walked.order, id) + Ancestors(l.walked.order, pageId, id, DEPTH_CAP)
  }

  function KinOf(l: Layout, pageId: Id, moving: seq<Id>): set<Id>
    decreases |moving|
  {
    if moving == [] then {} else KinOf(l, pageId, moving[..|moving| - 1]) + Kin(l, pageId, moving[|moving| - 1])
  }

  function Blocking(order: seq<Shape>, b: map<Id, Rect>, skip: set<Id>): seq<Rect>
    decreases |order|
  {
    if order == [] then []
    else
      var front := Blocking(order[..|order| - 1], b, skip);
      var s := order[|order| - 1];
      if s.kind == Box && s.id !in skip && s.id in b then front + [b[s.id]] else front
  }

  function Blockers(l: Layout, pageId: Id, moving: seq<Id>): seq<Rect> {
    Blocking(l.walked.order, l.bounds, KinOf(l, pageId, moving))
  }

  lemma {:induction false} BlockingMember(order: seq<Shape>, b: map<Id, Rect>, skip: set<Id>, s: Shape)
    requires s in order && s.kind == Box && s.id !in skip && s.id in b
    ensures b[s.id] in Blocking(order, b, skip)
    decreases |order|
  {
    if s != order[|order| - 1] {
      BlockingMember(order[..|order| - 1], b, skip, s);
    }
  }

  lemma KinOfOne(l: Layout, pageId: Id, id: Id)
    ensures KinOf(l, pageId, [id]) == Kin(l, pageId, id)
  {
    assert [id][..0] == [];
  }

  /* ------------------------------------------------------------------------ placing */

  datatype Side = Under | RightOf

  function SlideAxis(side: Side): Axis {
    if side == Under then AlongY else AlongX
  }

  /** Where the shape is first wanted: just past the target on that side, aligned along it. */
  function Wanted(side: Side, box: Rect, target: Rect, gap: real, align: Align): Point {
    match side
    case Under => Point(target.x + Offset(target.w, box.w, align), Bottom(target) + gap)
    case RightOf => Point(Right(target) + gap, target.y + Offset(target.h, box.h, align))
  }

  function Landing(l: Layout, pageId: Id, side: Side, id: Id, targetId: Id, gap: real, align: Align): Rect
    requires id in l.bounds && targetId in l.bounds
  {
    var box := l.bounds[id];
    var size := Size(box.w, box.h);
    Placed(Slide(Blockers(l, pageId, [id]), size, Wanted(side, box, l.bounds[targetId], gap, align), SlideAxis(side), gap, SLIDE_CAP), size)
  }

  predicate TooSmall(dx: real, dy: real) {
    Abs(dx) < SMALLEST_MOVE && Abs(dy) < SMALLEST_MOVE
  }

  /** The records after the move has been written, or left alone when it is too small to matter. */
  function ApplyMove(shapes: seq<Shape>, l: Layout, s: Shape, dx: real, dy: real): seq<Shape> {
    if TooSmall(dx, dy) then shapes else Written(shapes, TranslateShape(s, dx, dy, l))
  }

  /* ---------------------------------------------------------------------- verifying */

  /** Two boxes the verifier compares: neither is a group and neither contains the other. */
  ghost predicate Compares(l: Layout, pageId: Id, a: Shape, o: Shape) {
    a.kind == Box && o.kind == Box && o.id !in Kin(l, pageId, a.id) && a.id in l.bounds && o.id in l.bounds
  }

  ghost predicate Overlaps(l: Layout, pageId: Id, a: Shape, o: Shape) {
    Compares(l, pageId, a, o) && OverlapArea(l.bounds[a.id], l.bounds[o.id]) > 1.0
  }

  ghost predicate Crowds(l: Layout, pageId: Id, a: Shape, o: Shape, requested: real) {
    && Compares(l, pageId, a, o) && OverlapArea(l.bounds[a.id], l.bounds[o.id]) <= 1.0
    && GapBetween(l.bounds[a.id], l.bounds[o.id]) < requested - 1.0
  }

  /** No touched shape overlaps anything it should not. */
  ghost predicate NoOverlap(l: Layout, pageId: Id, touched: seq<Id>) {
    forall a, o :: a in l.walked.order && o in l.walked.order && a.id in touched ==> !Overlaps(l, pageId, a, o)
  }

  ghost predicate PairsSpaced(l: Layout, pairs: seq<(Id, Id)>, requested: real) {
    forall p :: p in pairs && p.0 in l.bounds && p.1 in l.bounds ==>
      GapBetween(l.bounds[p.0], l.bounds[p.1]) >= requested - 1.0
  }

  ghost predicate NoneCrowds(l: Layout, pageId: Id, touched: seq<Id>, requested: real) {
    forall a, o :: a in l.walked.order && o in l.walked.order && a.id in touched && o.id in touched ==> !Crowds(l, pageId, a, o, requested)
  }

  /** Every pair is as far apart as asked, and so are any two touched shapes that do not overlap. */
  ghost predicate SpacedOut(l: Layout, pageId: Id, touched: seq<Id>, pairs: seq<(Id, Id)>, requested: real) {
    PairsSpaced(l, pairs, requested) && NoneCrowds(l, pageId, touched, requested)
  }

  /* --------------------------------------------------------------------- the theorem */

  /**
   * Known before the move, where no arrow is bound across: whether the target travels along, or is a group that will
   * close around the shape.
   */
  predicate SpacingCanHold(l: Layout, id: Id, targetId: Id, gap: real)
    requires id in l.bounds && targetId in l.bounds
  {
    if targetId in Inward(l.walked.order, id) then GapBetween(l.bounds[id], l.bounds[targetId]) >= gap - SPACING_TOLERANCE
    else targetId in Around(l.walked.order, id, DEPTH_CAP) ==> gap <= SPACING_TOLERANCE
  }

  /** No arrow under the shape is bound to anything elsewhere, and none elsewhere to anything under it. */
  ghost predicate NoneAcross(order: seq<Shape>, id: Id) {
    forall a, tie :: a in order && a.kind.Arrow? && tie in a.kind.line.ties && tie.toId in BoxIds(order) + ArrowIds(order) ==>
      (a.id in Inward(order, id) <==> tie.toId in Inward(order, id))
  }

  /** Every box as it will be after the move. */
  function Foreseen(shapes: seq<Shape>, l: Layout, id: Id, d: Point): map<Id, Rect> {
    Forecast(shapes, l.walked, MovingOne(l.walked.order, id), [STILL, d])
  }

  /** The shape's own box goes with it: it is a box, or nothing outside it enters into it. */
  ghost predicate Travels(l: Layout, id: Id) {
    CourseOf(l.walked.order, MovingOne(l.walked.order, id), id) == Goes(1)
  }

  /**
   * Known before the move, whatever is bound to what: the target stays, or travels along and stood far enough off. What
   * is made from what moves and what stays, be it target or shape, is to be far enough off when boxed again in the
   * carried frames.
   */
  ghost predicate SpacingForeseen(shapes: seq<Shape>, l: Layout, id: Id, targetId: Id, gap: real, d: Point)
    requires id in l.bounds && targetId in l.bounds
  {
    var boxes := Foreseen(shapes, l, id, d);
    if Travels(l, id) then
      match CourseOf(l.walked.order, MovingOne(l.walked.order, id), targetId)
      case Goes(n) => n == 0 || GapBetween(l.bounds[id], l.bounds[targetId]) >= gap - SPACING_TOLERANCE
      case Loose => targetId in boxes && GapBetween(Shift(l.bounds[id], d.x, d.y), boxes[targetId]) >= gap - SPACING_TOLERANCE
    else
      id in boxes && targetId in boxes && GapBetween(boxes[id], boxes[targetId]) >= gap - SPACING_TOLERANCE
  }

  /** In line with the target: the left edges, the middles or the right edges are. */
  ghost predicate InColumn(target: Rect, r: Rect, align: Align) {
    match align
    case Start => r.x == target.x
    case Center => r.x + r.w / 2.0 == target.x + target.w / 2.0
    case End => r.x + r.w == target.x + target.w
  }

  /** In line with the target: the upper edges, the middles or the lower edges are. */
  ghost predicate InLine(target: Rect, r: Rect, align: Align) {
    match align
    case Start => r.y == target.y
    case Center => r.y + r.h / 2.0 == target.y + target.h / 2.0
    case End => r.y + r.h == target.y + target.h
  }

  /**
   * In line with the target and past its far edge by at least the gap, with every nearer place blocked: if the place
   * exactly the gap past it is clear, that is where it stands.
   */
  ghost predicate StandsBeside(blockers: seq<Rect>, target: Rect, side: Side, r: Rect, gap: real, align: Align) {
    match side
    case Under =>
      && InColumn(target, r, align) && target.y + target.h + gap <= r.y
      && (forall y :: target.y + target.h + gap <= y < r.y ==> !Clear(blockers, r.(y := y), gap))
      && (Clear(blockers, r.(y := target.y + target.h + gap), gap) ==> r.y == target.y + target.h + gap)
    case RightOf =>
      && InLine(target, r, align) && target.x + target.w + gap <= r.x
      && (forall x :: target.x + target.w + gap <= x < r.x ==> !Clear(blockers, r.(x := x), gap))
      && (Clear(blockers, r.(x := target.x + target.w + gap), gap) ==> r.x == target.x + target.w + gap)
  }

  /** Whatever is in the way and however often the slide may jump, the landing is the nearest clear place in line. */
  lemma LandingIsBeside(l: Layout, pageId: Id, side: Side, id: Id, targetId: Id, gap: real, align: Align)
    requires id in l.bounds && targetId in l.bounds
    ensures var landing := Landing(l, pageId, side, id, targetId, gap, align);
            && landing.w == l.bounds[id].w && landing.h == l.bounds[id].h
            && StandsBeside(Blockers(l, pageId, [id]), l.bounds[targetId], side, landing, gap, align)
  {
    var box, target, blockers := l.bounds[id], l.bounds[targetId], Blockers(l, pageId, [id]);
    var size, wanted := Size(box.w, box.h), Wanted(side, box, target, gap, align);
    var landing := Landing(l, pageId, side, id, targetId, gap, align);
    SlideSkipsNothing(blockers, size, wanted, SlideAxis(side), gap, SLIDE_CAP);
    match side
    case Under =>
      forall y | target.y + target.h + gap <= y < landing.y
        ensures !Clear(blockers, landing.(y := y), gap)
      {
        assert Placed(At(wanted, AlongY, y), size) == landing.(y := y);
      }
    case RightOf =>
      forall x | target.x + target.w + gap <= x < landing.x
        ensures !Clear(blockers, landing.(x := x), gap)
      {
        assert Placed(At(wanted, AlongX, x), size) == landing.(x := x);
      }
  }

  lemma LandingIsClear(l: Layout, pageId: Id, side: Side, id: Id, targetId: Id, gap: real, align: Align)
    requires id in l.bounds && targetId in l.bounds && gap > 0.0 && |Blockers(l, pageId, [id])| <= 500
    ensures Clear(Blockers(l, pageId, [id]), Landing(l, pageId, side, id, targetId, gap, align), gap)
    ensures GapBetween(Landing(l, pageId, side, id, targetId, gap, align), l.bounds[targetId]) >= gap
  {
    var box := l.bounds[id];
    var size, wanted := Size(box.w, box.h), Wanted(side, box, l.bounds[targetId], gap, align);
    SlideEndsClear(Blockers(l, pageId, [id]), size, wanted, SlideAxis(side), gap, SLIDE_CAP);
    SlideSkipsNothing(Blockers(l, pageId, [id]), size, wanted, SlideAxis(side), gap, SLIDE_CAP);
  }

  /** Standing within the smallest move of a clear spot is being clear by that much less. */
  lemma NearlyThere(a: Rect, a': Rect, o: Rect, gap: real)
    requires a'.w == a.w && a'.h == a.h && TooSmall(a.x - a'.x, a.y - a'.y) && gap >= SPACING_TOLERANCE
    requires GapBetween(a, o) >= gap
    ensures GapBetween(a', o) >= gap - SMALLEST_MOVE && OverlapArea(a', o) == 0.0
  {
  }

  lemma FarIsDisjoint(a: Rect, o: Rect, gap: real)
    requires gap > 0.0 && GapBetween(a, o) >= gap
    ensures OverlapArea(a, o) == 0.0
  {
  }

  /** Containment is read off ids and parents only, which a move does not touch. */
  lemma {:induction false} SameDescend(order: seq<Shape>, order': seq<Shape>, parent: Id, depth: nat)
    requires SameRecords(order, order') && depth <= DEPTH_CAP + 1
    ensures Descend(order', parent, depth) == Descend(order, parent, depth)
    decreases DEPTH_CAP + 1 - depth, 1, 0
  {
    if depth <= DEPTH_CAP {
      SameChildren(order, order', parent);
      SameDescendEach(order, order', Children(order, parent), Children(order', parent), depth);
    }
  }

  lemma {:induction false} SameDescendEach(order: seq<Shape>, order': seq<Shape>, list: seq<Shape>, list': seq<Shape>, depth: nat)
    requires SameRecords(order, order') && SameRecords(list, list') && depth <= DEPTH_CAP
    ensures DescendEach(order', list', depth) == DescendEach(order, list, depth)
    decreases DEPTH_CAP + 1 - depth, 0, |list|
  {
    if list != [] {
      SameDescend(order, order', list[0].id, depth + 1);
      SameDescendEach(order, order', list[1..], list'[1..], depth);
    }
  }

  lemma {:induction false} SameFind(order: seq<Shape>, order': seq<Shape>, id: Id)
    requires SameRecords(order, order')
    ensures Find(order', id).Some? == Find(order, id).Some?
    ensures Find(order, id).Some? ==> SameRecord(Find(order, id).value, Find(order', id).value)
    decreases |order|
  {
    if order != [] {
      SameFind(order[..|order| - 1], order'[..|order| - 1], id);
    }
  }

  lemma {:induction false} SameAncestors(order: seq<Shape>, order': seq<Shape>, pageId: Id, id: Id, steps: nat)
    requires SameRecords(order, order')
    ensures Ancestors(order', pageId, id, steps) == Ancestors(order, pageId, id, steps)
    decreases steps
  {
    SameFind(order, order', id);
    if steps > 0 && Find(order, id).Some? {
      SameAncestors(order, order', pageId, Find(order, id).value.parentId, steps - 1);
    }
  }

  lemma {:induction false} SameAround(order: seq<Shape>, order': seq<Shape>, id: Id, steps: nat)
    requires SameRecords(order, order')
    ensures Around(order', id, steps) == Around(order, id, steps)
    decreases steps
  {
    SameFind(order, order', id);
    if steps > 0 && Find(order, id).Some? {
      var parent := Find(order, id).value.parentId;
      SameFind(order, order', parent);
      SameAround(order, order', parent, steps - 1);
    }
  }

  lemma KinIsKept(l: Layout, l': Layout, pageId: Id, id: Id, dx: real, dy: real)
    requires MovedBy(l, l', id, dx, dy)
    ensures Kin(l', pageId, id) == Kin(l, pageId, id)
    ensures Around(l'.walked.order, id, DEPTH_CAP) == Around(l.walked.order, id, DEPTH_CAP)
  {
    SameDescend(l.walked.order, l'.walked.order, id, 0);
    SameAncestors(l.walked.order, l'.walked.order, pageId, id, DEPTH_CAP);
    SameAround(l.walked.order, l'.walked.order, id, DEPTH_CAP);
  }

  /** Where the shape stands at the end: exactly on the landing, or as near it as moves are worth making. */
  ghost predicate Arrived(box: Rect, landing: Rect) {
    box == landing || (box.w == landing.w && box.h == landing.h && Abs(landing.x - box.x) < 0.001 && Abs(landing.y - box.y) < 0.001)
  }

  lemma StandingStill(shapes: seq<Shape>, pageId: Id, id: Id)
    requires UniqueIds(shapes, pageId)
    ensures MovedBy(ComputeLayout(shapes, pageId), ComputeLayout(shapes, pageId), id, 0.0, 0.0)
  {
    var w := ComputeLayout(shapes, pageId).walked;
    forall k | k in w.frame
      ensures CarriedFrame(w.frame[k], 0.0, 0.0) == w.frame[k]
    {
      CarriedNowhere(w.frame[k]);
    }
    LayoutFollows(shapes, shapes, pageId, MovingOne(w.order, id), [STILL, Point(0.0, 0.0)]);
  }

  /** A move too small to matter is not made. */
  function Made(dx: real, dy: real): Point {
    if TooSmall(dx, dy) then Point(0.0, 0.0) else Point(dx, dy)
  }

  lemma MoveIsMade(shapes: seq<Shape>, pageId: Id, s: Shape, dx: real, dy: real)
    requires UniqueIds(shapes, pageId) && UnitTurns(shapes) && s in ComputeLayout(shapes, pageId).walked.order
    requires Steered(ComputeLayout(shapes, pageId).walked, s)
    ensures var l := ComputeLayout(shapes, pageId); var shapes' := ApplyMove(shapes, l, s, dx, dy);
            && SameRecords(shapes, shapes')
            && MovedBy(l, ComputeLayout(shapes', pageId), s.id, Made(dx, dy).x, Made(dx, dy).y)
  {
    if TooSmall(dx, dy) {
      StandingStill(shapes, pageId, s.id);
    } else {
      TranslationIsExact(shapes, pageId, s, dx, dy);
      DisplacementIsExactExactlyWhen(shapes, pageId, s, dx, dy);
    }
  }

  /** The distance to the landing. */
  function Needed(l: Layout, pageId: Id, side: Side, id: Id, targetId: Id, gap: real, align: Align): Point
    requires id in l.bounds && targetId in l.bounds
  {
    var landing := Landing(l, pageId, side, id, targetId, gap, align);
    Point(landing.x - l.bounds[id].x, landing.y - l.bounds[id].y)
  }

  /** Moved by that much it stands beside the target. */
  lemma NeededIsBeside(l: Layout, pageId: Id, side: Side, id: Id, targetId: Id, gap: real, align: Align, d: Point)
    requires id in l.bounds && targetId in l.bounds && d == Needed(l, pageId, side, id, targetId, gap, align)
    ensures StandsBeside(Blockers(l, pageId, [id]), l.bounds[targetId], side, Shift(l.bounds[id], d.x, d.y), gap, align)
  {
    LandingIsBeside(l, pageId, side, id, targetId, gap, align);
    assert Shift(l.bounds[id], d.x, d.y) == Landing(l, pageId, side, id, targetId, gap, align);
  }

  lemma ArrivesAtLanding(l: Layout, pageId: Id, side: Side, id: Id, targetId: Id, gap: real, align: Align)
    requires id in l.bounds && targetId in l.bounds
    ensures var d := Needed(l, pageId, side, id, targetId, gap, align);
            Arrived(Shift(l.bounds[id], Made(d.x, d.y).x, Made(d.x, d.y).y), Landing(l, pageId, side, id, targetId, gap, align))
  {
  }

  lemma ListedHasBounds(shapes: seq<Shape>, pageId: Id, id: Id)
    requires UniqueIds(shapes, pageId) && Lists(ComputeLayout(shapes, pageId).walked.order, id)
    ensures id in ComputeLayout(shapes, pageId).bounds
  {
    LayoutIsSettled(shapes, pageId);
    var s := ListedShape(ComputeLayout(shapes, pageId).walked.order, id);
  }

  /** The records after placing the shape beside the target. */
  function Placing(shapes: seq<Shape>, pageId: Id, side: Side, s: Shape, targetId: Id, gap: real, align: Align): seq<Shape>
    requires var l := ComputeLayout(shapes, pageId); s.id in l.bounds && targetId in l.bounds
  {
    var l := ComputeLayout(shapes, pageId);
    var d := Needed(l, pageId, side, s.id, targetId, gap, align);
    ApplyMove(shapes, l, s, d.x, d.y)
  }

  lemma BoxGoes(order: seq<Shape>, carriers: map<Id, nat>, s: Shape)
    requires Listed(order) && s in order && s.kind == Box
    ensures s.id in Courses(order, carriers) ==> Courses(order, carriers)[s.id] == Goes(CarrierOf(carriers, s.id))
  {
    SelfContainedGoes(order, carriers, {s.id}, CarrierOf(carriers, s.id));
  }

  /** A box goes with its own frame, whatever else is on the page. */
  lemma BoxFollows(l: Layout, l': Layout, carriers: map<Id, nat>, deltas: seq<Point>, s: Shape)
    requires Shifted(l, l', carriers, deltas) && Listed(l.walked.order) && s in l.walked.order && s.kind == Box && s.id in l.bounds
    ensures s.id in l'.bounds
    ensures l'.bounds[s.id] == Shift(l.bounds[s.id], deltas[CarrierOf(carriers, s.id)].x, deltas[CarrierOf(carriers, s.id)].y)
  {
    BoxGoes(l.walked.order, carriers, s);
    assert Follows(l.bounds[s.id], l'.bounds[s.id], Courses(l.walked.order, carriers)[s.id], deltas);
  }

  /** A box that blocked the shape before the move stands unchanged after it. */
  lemma BlockerStays(l: Layout, l': Layout, pageId: Id, id: Id, dx: real, dy: real, o: Shape)
    requires MovedBy(l, l', id, dx, dy) && Listed(l.walked.order)
    requires o in l'.walked.order && o.kind == Box && o.id !in Kin(l, pageId, id) && o.id in l'.bounds
    ensures o.id in l.bounds && l'.bounds[o.id] == l.bounds[o.id] && l.bounds[o.id] in Blockers(l, pageId, [id])
  {
    var i :| 0 <= i < |l'.walked.order| && l'.walked.order[i] == o;
    var x := l.walked.order[i];
    assert SameRecord(x, o);
    BoxFollows(l, l', MovingOne(l.walked.order, id), [STILL, Point(dx, dy)], x);
    KinOfOne(l, pageId, id);
    BlockingMember(l.walked.order, l.bounds, Kin(l, pageId, id), x);
  }

  /** At the landing, or as near it as moves are worth making, the shape overlaps nothing it should not. */
  lemma PlacedOverlapsNothing(l: Layout, l': Layout, pageId: Id, side: Side, id: Id, targetId: Id, gap: real, align: Align, dx: real, dy: real)
    requires MovedBy(l, l', id, dx, dy) && Listed(l.walked.order) && id in l.bounds && targetId in l.bounds
    requires gap >= SPACING_TOLERANCE && |Blockers(l, pageId, [id])| <= SLIDE_CAP
    requires l'.bounds.Keys == l.bounds.Keys && l'.bounds[id] == Shift(l.bounds[id], dx, dy)
    requires Arrived(Shift(l.bounds[id], dx, dy), Landing(l, pageId, side, id, targetId, gap, align))
    ensures NoOverlap(l', pageId, [id])
  {
    var landing, box := Landing(l, pageId, side, id, targetId, gap, align), Shift(l.bounds[id], dx, dy);
    LandingIsClear(l, pageId, side, id, targetId, gap, align);
    KinIsKept(l, l', pageId, id, dx, dy);
    forall a, o | a in l'.walked.order && o in l'.walked.order && a.id in [id] && Compares(l', pageId, a, o)
      ensures OverlapArea(l'.bounds[a.id], l'.bounds[o.id]) == 0.0
    {
      BlockerStays(l, l', pageId, id, dx, dy, o);
      PlacerAndVerifierAgree(landing, l.bounds[o.id], gap);
      if box == landing {
        FarIsDisjoint(box, l.bounds[o.id], gap);
      } else {
        NearlyThere(landing, box, l.bounds[o.id], gap);
      }
    }
  }

  lemma GapOfShifted(a: Rect, b: Rect, dx: real, dy: real)
    ensures GapBetween(Shift(a, dx, dy), Shift(b, dx, dy)) == GapBetween(a, b)
  {
  }

  lemma GapToEnclosing(a: Rect, b: Rect)
    requires Proper(a) && Inside(a, b)
    ensures GapBetween(a, b) == 0.0
  {
  }

  lemma ShiftedNowhere(r: Rect)
    ensures Shift(r, 0.0, 0.0) == r
  {
  }

  /** The gap to the target afterwards, whichever way the target goes. */
  lemma GapAfterPlacing(shapes: seq<Shape>, l: Layout, l': Layout, pageId: Id, side: Side, id: Id, targetId: Id, gap: real, align: Align, d: Point)
    requires MovedBy(l, l', id, d.x, d.y) && l'.bounds == Foreseen(shapes, l, id, d) && id in l.bounds && targetId in l.bounds
    requires gap >= SPACING_TOLERANCE && |Blockers(l, pageId, [id])| <= SLIDE_CAP && l'.bounds[id] == Shift(l.bounds[id], d.x, d.y)
    requires Arrived(Shift(l.bounds[id], d.x, d.y), Landing(l, pageId, side, id, targetId, gap, align)) && Travels(l, id)
    ensures GapBetween(l'.bounds[id], l'.bounds[targetId]) >= gap - SPACING_TOLERANCE <==> SpacingForeseen(shapes, l, id, targetId, gap, d)
  {
    var landing, box := Landing(l, pageId, side, id, targetId, gap, align), Shift(l.bounds[id], d.x, d.y);
    var courses := Courses(l.walked.order, MovingOne(l.walked.order, id));
    assert Follows(l.bounds[targetId], l'.bounds[targetId], courses[targetId], [STILL, d]);
    match courses[targetId]
    case Goes(n) =>
      if n == 0 {
        ShiftedNowhere(l.bounds[targetId]);
        LandingIsClear(l, pageId, side, id, targetId, gap, align);
        if box != landing {
          NearlyThere(landing, box, l.bounds[targetId], gap);
        }
      } else {
        GapOfShifted(l.bounds[id], l.bounds[targetId], d.x, d.y);
      }
    case Loose =>
  }

  lemma AabbIsProper(m: Matrix, r: Rect)
    ensures Proper(Aabb(m, r))
  {
    BoxOfIsProper(Apply(m, Point(r.x, r.y)), Apply(m, Point(Right(r), r.y)), Apply(m, Point(r.x, Bottom(r))), Apply(m, Point(Right(r), Bottom(r))));
  }

  lemma BoxOfIsProper(p: Point, q: Point, u: Point, v: Point)
    ensures Proper(BoxOf(p, q, u, v))
  {
  }

  lemma {:induction false} UnionIsProper(rects: seq<Rect>)
    requires rects != [] && forall r :: r in rects ==> Proper(r)
    ensures Proper(Union(rects))
    decreases |rects|
  {
    assert rects[|rects| - 1] in rects;
    if |rects| > 1 {
      UnionIsProper(rects[..|rects| - 1]);
    }
  }

  ghost predicate AllProper(b: map<Id, Rect>) {
    forall k :: k in b ==> Proper(b[k])
  }

  lemma {:induction false} ShapeBoxesAreProper(w: Walked, order: seq<Shape>)
    ensures AllProper(ShapeBoxes(PAGE_BOXING, w, order))
    decreases |order|
  {
    if order != [] {
      ShapeBoxesAreProper(w, order[..|order| - 1]);
      var s := order[|order| - 1];
      AabbIsProper(FrameAt(w, s.id).matrix, s.box);
    }
  }

  lemma SpannedIsProper(p: Point, q: Point, bend: real)
    requires bend >= 0.0
    ensures Proper(Spanned(p, q, bend))
  {
  }

  lemma {:induction false} ArrowBoxesAreProper(w: Walked, order: seq<Shape>, b: map<Id, Rect>)
    requires AllProper(b)
    ensures AllProper(ArrowBoxes(PAGE_BOXING, w, order, b))
    decreases |order|
  {
    if order != [] {
      ArrowBoxesAreProper(w, order[..|order| - 1], b);
      var front, s := ArrowBoxes(PAGE_BOXING, w, order[..|order| - 1], b), order[|order| - 1];
      if s.kind.Arrow? {
        ArrowIsProper(front, FrameAt(w, s.id), s.kind.line);
      }
    }
  }

  lemma ArrowIsProper(b: map<Id, Rect>, f: Frame, line: Line)
    ensures Proper(ArrowBox(PAGE_BOXING, b, b.Keys, f, line))
  {
    var tail, head := PAGE_BOXING.place(f, line.tail), PAGE_BOXING.place(f, line.head);
    SpannedIsProper(TailOf(PAGE_BOXING, b, b.Keys, line, tail, head), HeadOf(PAGE_BOXING, b, b.Keys, line, tail, head), Abs(line.bend));
  }

  lemma {:induction false} LaidOutAreProper(list: seq<Shape>, b: map<Id, Rect>)
    requires AllProper(b)
    ensures forall r :: r in LaidOut(list, b) ==> Proper(r)
    decreases |list|
  {
    if list != [] {
      LaidOutAreProper(list[..|list| - 1], b);
    }
  }

  lemma {:induction false} GroupPassIsProper(shapes: seq<Shape>, w: Walked, n: nat, b: map<Id, Rect>)
    requires n <= |w.order| && AllProper(b)
    ensures AllProper(GroupPass(shapes, w, n, b))
    decreases n
  {
    if n > 0 {
      var members := LaidOut(Children(shapes, w.order[n - 1].id), b);
      LaidOutAreProper(Children(shapes, w.order[n - 1].id), b);
      if members != [] {
        UnionIsProper(members);
      }
      GroupPassSteps(shapes, w, n, b);
      GroupPassIsProper(shapes, w, n - 1, GroupStep(shapes, w, b, w.order[n - 1]));
    }
  }

  /** No box of a layout, of a shape, an arrow or a group, has a negative side. */
  lemma LayoutIsProper(shapes: seq<Shape>, pageId: Id)
    ensures AllProper(ComputeLayout(shapes, pageId).bounds)
  {
    var w := ComputeLayout(shapes, pageId).walked;
    ShapeBoxesAreProper(w, w.order);
    ArrowBoxesAreProper(w, w.order, ShapeBoxes(PAGE_BOXING, w, w.order));
    GroupPassIsProper(shapes, w, |w.order|, ArrowBoxes(PAGE_BOXING, w, w.order, ShapeBoxes(PAGE_BOXING, w, w.order)));
  }

  lemma MovesKeepIds(shapes: seq<Shape>, pageId: Id, l: Layout, s: Shape, dx: real, dy: real)
    requires UniqueIds(shapes, pageId)
    ensures UniqueIds(ApplyMove(shapes, l, s, dx, dy), pageId)
  {
    var after := ApplyMove(shapes, l, s, dx, dy);
    forall x | x in after
      ensures exists y :: y in shapes && y.id == x.id && (x == y || x == Moved(y, s.id, Point(TranslateShape(s, dx, dy, l).x, TranslateShape(s, dx, dy, l).y)))
    {
      var i :| 0 <= i < |after| && after[i] == x;
      assert shapes[i] in shapes;
    }
  }

  /** Where the shape's frame is carried, as the placement makes it. */
  function PlacedBy(l: Layout, pageId: Id, side: Side, id: Id, targetId: Id, gap: real, align: Align): Point
    requires id in l.bounds && targetId in l.bounds
  {
    var d := Needed(l, pageId, side, id, targetId, gap, align);
    Made(d.x, d.y)
  }

  /** A box travels, whatever else is on the page. */
  lemma BoxTravels(l: Layout, s: Shape)
    requires Listed(l.walked.order) && s in l.walked.order && s.kind == Box
    ensures Travels(l, s.id)
  {
    CoursesAreListed(l.walked.order, MovingOne(l.walked.order, s.id));
    SelfContainedGoes(l.walked.order, MovingOne(l.walked.order, s.id), {s.id}, 1);
  }

  /** What the certificate rests on. */
  lemma PlacementIsMade(shapes: seq<Shape>, pageId: Id, side: Side, s: Shape, t: Shape, gap: real, align: Align)
    requires UniqueIds(shapes, pageId) && UnitTurns(shapes)
    requires var l := ComputeLayout(shapes, pageId); s in l.walked.order && t in l.walked.order && Steered(l.walked, s)
    ensures var l := ComputeLayout(shapes, pageId);
            && s.id in l.bounds && t.id in l.bounds && Listed(l.walked.order)
            && var after, d := ComputeLayout(Placing(shapes, pageId, side, s, t.id, gap, align), pageId), PlacedBy(l, pageId, side, s.id, t.id, gap, align);
            && MovedBy(l, after, s.id, d.x, d.y) && after.bounds == Foreseen(shapes, l, s.id, d) && after.bounds.Keys == l.bounds.Keys
            && (Travels(l, s.id) ==>
                  && after.bounds[s.id] == Shift(l.bounds[s.id], d.x, d.y)
                  && Arrived(after.bounds[s.id], Landing(l, pageId, side, s.id, t.id, gap, align)))
  {
    var l := ComputeLayout(shapes, pageId);
    WalkedPageIsTree(EnterShape, shapes, pageId);
    LayoutIsSettled(shapes, pageId);
    var d, made := Needed(l, pageId, side, s.id, t.id, gap, align), PlacedBy(l, pageId, side, s.id, t.id, gap, align);
    var shapes' := ApplyMove(shapes, l, s, d.x, d.y);
    MoveIsMade(shapes, pageId, s, d.x, d.y);
    ForecastIsExact(shapes, shapes', pageId, MovingOne(l.walked.order, s.id), [STILL, made]);
    TravellerMoves(l, ComputeLayout(shapes', pageId), s.id, made);
    ArrivesAtLanding(l, pageId, side, s.id, t.id, gap, align);
  }

  lemma TravellerMoves(l: Layout, l': Layout, id: Id, d: Point)
    requires MovedBy(l, l', id, d.x, d.y) && id in l.bounds
    ensures l'.bounds.Keys == l.bounds.Keys && (Travels(l, id) ==> l'.bounds[id] == Shift(l.bounds[id], d.x, d.y))
  {
    assert Follows(l.bounds[id], l'.bounds[id], Courses(l.walked.order, MovingOne(l.walked.order, id))[id], [STILL, d]);
  }

  /** The verifier compares boxes only. */
  lemma OnlyBoxesOverlap(l: Layout, l': Layout, pageId: Id, s: Shape)
    requires SameRecords(l.walked.order, l'.walked.order) && Listed(l.walked.order) && s in l.walked.order && s.kind != Box
    ensures NoOverlap(l', pageId, [s.id])
  {
    forall a | a in l'.walked.order && a.id in [s.id]
      ensures a.kind != Box
    {
      var i :| 0 <= i < |l'.walked.order| && l'.walked.order[i] == a;
      assert SameRecord(l.walked.order[i], a);
      var j :| 0 <= j < |l.walked.order| && l.walked.order[j] == s;
    }
  }

  /**
   * Placing a shape or a group below or to the right of another, at any depth under rotated containers and among at most
   * as many blockers as the slide has jumps: the recomputed layout finds no overlap, finds what travels where it was
   * wanted, and reports the spacing as kept exactly when that could be foreseen.
   */
  lemma PlacementIsCertified(shapes: seq<Shape>, pageId: Id, side: Side, s: Shape, t: Shape, gap: real, align: Align)
    requires UniqueIds(shapes, pageId) && UnitTurns(shapes) && gap >= SPACING_TOLERANCE
    requires var l := ComputeLayout(shapes, pageId);
             && s in l.walked.order && t in l.walked.order && Steered(l.walked, s)
             && |Blockers(l, pageId, [s.id])| <= 500
    ensures var l := ComputeLayout(shapes, pageId);
            && s.id in l.bounds && t.id in l.bounds && (s.kind == Box ==> Travels(l, s.id))
            && var after := ComputeLayout(Placing(shapes, pageId, side, s, t.id, gap, align), pageId);
            && s.id in after.bounds
            && (Travels(l, s.id) ==> exists landing ::
                  && Arrived(after.bounds[s.id], landing)
                  && StandsBeside(Blockers(l, pageId, [s.id]), l.bounds[t.id], side, landing, gap, align)
                  && Clear(Blockers(l, pageId, [s.id]), landing, gap))
            && NoOverlap(after, pageId, [s.id])
            && (SpacedOut(after, pageId, [s.id], [(s.id, t.id)], gap) <==>
                SpacingForeseen(shapes, l, s.id, t.id, gap, PlacedBy(l, pageId, side, s.id, t.id, gap, align)))
  {
    var l := ComputeLayout(shapes, pageId);
    PlacementIsMade(shapes, pageId, side, s, t, gap, align);
    var after, d := ComputeLayout(Placing(shapes, pageId, side, s, t.id, gap, align), pageId), PlacedBy(l, pageId, side, s.id, t.id, gap, align);
    OnePairSpaced(after, pageId, s.id, t.id, gap);
    if s.kind == Box {
      BoxTravels(l, s);
    } else {
      OnlyBoxesOverlap(l, after, pageId, s);
    }
    if Travels(l, s.id) {
      LandingIsBeside(l, pageId, side, s.id, t.id, gap, align);
      LandingIsClear(l, pageId, side, s.id, t.id, gap, align);
      PlacedOverlapsNothing(l, after, pageId, side, s.id, t.id, gap, align, d.x, d.y);
      GapAfterPlacing(shapes, l, after, pageId, side, s.id, t.id, gap, align, d);
    }
  }

  lemma OnePairSpaced(l: Layout, pageId: Id, id: Id, targetId: Id, gap: real)
    requires id in l.bounds && targetId in l.bounds
    ensures SpacedOut(l, pageId, [id], [(id, targetId)], gap) <==>
            GapBetween(l.bounds[id], l.bounds[targetId]) >= gap - SPACING_TOLERANCE
  {
    assert (id, targetId) in [(id, targetId)];
  }
}
