/** When spacing can be kept: what closes on a shape that moves, and what is tied to it. */
module Spacing {
  import opened Wrappers
  import opened Geometry
  import opened Sliding
  import opened Arrange
  import opened LayoutTree
  import opened LayoutBounds
  import opened Drift
  import opened Arrows
  import opened Containment
  import opened Placement
  import opened Certification

  /* ----------------------------------------------------- where no arrow is bound across */

  lemma {:induction false} AroundContinues(shapes: seq<Shape>, pageId: Id, w: Walked, id: Id, steps: nat, s: Shape, g: Shape)
    requires IsTree(EnterShape, w, shapes, pageId) && id in w.depth && w.depth[id] <= steps
    requires s in w.order && g in w.order && s.parentId == g.id && g.kind == Group && (s.id == id || s.id in Around(w.order, id, steps))
    ensures g.id in Around(w.order, id, steps)
    decreases steps
  {
    FoundIsUnique(w.order, s);
    FoundIsUnique(w.order, g);
    assert Hangs(EnterShape, s, w, pageId) && Hangs(EnterShape, g, w, pageId);
    if s.id != id {
      var p := GroupOf(w.order, id).value;
      var x := Find(w.order, id).value;
      assert Hangs(EnterShape, x, w, pageId) && Hangs(EnterShape, p, w, pageId);
      AroundContinues(shapes, pageId, w, p.id, steps - 1, s, g);
    }
  }

  lemma {:induction false} AroundAreGroups(order: seq<Shape>, id: Id, steps: nat, s: Shape)
    requires Listed(order) && s in order && s.id in Around(order, id, steps)
    ensures s.kind == Group
    decreases steps
  {
    var g := GroupOf(order, id).value;
    FoundIsUnique(order, s);
    if s.id != g.id {
      AroundAreGroups(order, g.id, steps - 1, s);
    }
  }

  /** Everything listed that is neither under the shape nor a group around it. */
  function Apart(order: seq<Shape>, id: Id): set<Id> {
    set s | s in order && s.id !in Inward(order, id) && s.id !in Around(order, id, DEPTH_CAP) :: s.id
  }

  /** What is bound to something apart is apart, and so are the targets of what is. */
  lemma TiesStayApart(order: seq<Shape>, id: Id, a: Shape, tie: Tie)
    requires Listed(order) && NoneAcross(order, id) && a in order && a.kind.Arrow? && tie in a.kind.line.ties
    requires tie.toId in BoxIds(order) + ArrowIds(order) && a.id in Apart(order, id)
    ensures tie.toId in Apart(order, id)
  {
    var x :| x in order && x.id == tie.toId && x.kind != Group;
    if x.id in Around(order, id, DEPTH_CAP) {
      AroundAreGroups(order, id, DEPTH_CAP, x);
      assert false;
    }
  }

  lemma ApartIsSelfContained(shapes: seq<Shape>, pageId: Id, w: Walked, s: Shape)
    requires IsTree(EnterShape, w, shapes, pageId) && s in w.order && NoneAcross(w.order, s.id)
    ensures SelfContained(w.order, MovingOne(w.order, s.id), Apart(w.order, s.id), 0)
  {
    var order, region := w.order, Apart(w.order, s.id);
    InwardIsClosed(EnterShape, shapes, pageId, w, s);
    assert Hangs(EnterShape, s, w, pageId);
    forall a, tie | a in order && a.id in region && a.kind.Arrow? && tie in a.kind.line.ties && tie.toId in BoxIds(order) + ArrowIds(order)
      ensures tie.toId in region
    {
      TiesStayApart(order, s.id, a, tie);
    }
    forall x, g | x in order && g in order && g.id in region && g.kind == Group && x.parentId == g.id
      ensures x.id in region
    {
      if x.id == s.id || x.id in Around(order, s.id, DEPTH_CAP) {
        AroundContinues(shapes, pageId, w, s.id, DEPTH_CAP, x, g);
        assert false;
      }
    }
  }

  lemma InwardIsSelfContained(shapes: seq<Shape>, pageId: Id, w: Walked, s: Shape)
    requires IsTree(EnterShape, w, shapes, pageId) && s in w.order && NoneAcross(w.order, s.id)
    ensures SelfContained(w.order, MovingOne(w.order, s.id), Inward(w.order, s.id), 1)
  {
    InwardIsClosed(EnterShape, shapes, pageId, w, s);
  }

  /** Where no arrow is bound across, all that is under the shape moves with it and all that is apart stays. */
  lemma PlainCourses(shapes: seq<Shape>, pageId: Id, s: Shape)
    requires s in ComputeLayout(shapes, pageId).walked.order && NoneAcross(ComputeLayout(shapes, pageId).walked.order, s.id)
    ensures var order := ComputeLayout(shapes, pageId).walked.order; var courses := Courses(order, MovingOne(order, s.id));
            AllGo(courses, Inward(order, s.id), 1) && AllGo(courses, Apart(order, s.id), 0)
  {
    var w := WalkPage(EnterShape, shapes, pageId);
    WalkedPageIsTree(EnterShape, shapes, pageId);
    InwardIsSelfContained(shapes, pageId, w, s);
    ApartIsSelfContained(shapes, pageId, w, s);
    SelfContainedGoes(w.order, MovingOne(w.order, s.id), Inward(w.order, s.id), 1);
    SelfContainedGoes(w.order, MovingOne(w.order, s.id), Apart(w.order, s.id), 0);
  }

  /** What a translation leaves alone, as long as no arrow is bound across: everything apart. */
  lemma PlainTranslation(shapes: seq<Shape>, pageId: Id, s: Shape, l': Layout, dx: real, dy: real)
    requires var l := ComputeLayout(shapes, pageId);
             s in l.walked.order && NoneAcross(l.walked.order, s.id) && MovedBy(l, l', s.id, dx, dy)
    ensures var l := ComputeLayout(shapes, pageId);
            && l'.bounds.Keys == l.bounds.Keys
            && (forall k :: k in l.bounds && k in Inward(l.walked.order, s.id) ==> l'.bounds[k] == Shift(l.bounds[k], dx, dy))
            && (forall k :: k in l.bounds && k in Apart(l.walked.order, s.id) ==> l'.bounds[k] == l.bounds[k])
  {
    var l := ComputeLayout(shapes, pageId);
    var courses := Courses(l.walked.order, MovingOne(l.walked.order, s.id));
    PlainCourses(shapes, pageId, s);
    forall k | k in l.bounds
      ensures Follows(l.bounds[k], l'.bounds[k], courses[k], [STILL, Point(dx, dy)]) && Shift(l.bounds[k], 0.0, 0.0) == l.bounds[k]
    {
      ShiftedNowhere(l.bounds[k]);
    }
  }

  /* ------------------------------------------------------------- what is whole in itself */

  /** This is one of the arrow's bindings, to something that can have a box by then. */
  ghost predicate BoundTo(order: seq<Shape>, a: Shape, tie: Tie) {
    a.kind.Arrow? && tie in a.kind.line.ties && tie.toId in BoxIds(order) + ArrowIds(order)
  }

  /** No arrow under the shape is bound to anything elsewhere. */
  ghost predicate BoundWithin(order: seq<Shape>, id: Id) {
    forall a, tie :: a in order && a.id in Inward(order, id) && BoundTo(order, a, tie) ==> tie.toId in Inward(order, id)
  }

  lemma WholeIsSelfContained(shapes: seq<Shape>, pageId: Id, s: Shape, carriers: map<Id, nat>, n: nat)
    requires s in ComputeLayout(shapes, pageId).walked.order && BoundWithin(ComputeLayout(shapes, pageId).walked.order, s.id)
    requires var order := ComputeLayout(shapes, pageId).walked.order;
             forall x :: x in order && x.id in Inward(order, s.id) ==> CarrierOf(carriers, x.id) == n
    ensures var order := ComputeLayout(shapes, pageId).walked.order; SelfContained(order, carriers, Inward(order, s.id), n)
  {
    var w := WalkPage(EnterShape, shapes, pageId);
    WalkedPageIsTree(EnterShape, shapes, pageId);
    InwardIsClosed(EnterShape, shapes, pageId, w, s);
    forall a, tie | a in w.order && a.id in Inward(w.order, s.id) && a.kind.Arrow? && tie in a.kind.line.ties && tie.toId in BoxIds(w.order) + ArrowIds(w.order)
      ensures tie.toId in Inward(w.order, s.id)
    {
      assert BoundTo(w.order, a, tie);
    }
  }

  /** What is bound within itself travels, a group included. */
  lemma WholeTravels(shapes: seq<Shape>, pageId: Id, s: Shape)
    requires s in ComputeLayout(shapes, pageId).walked.order && BoundWithin(ComputeLayout(shapes, pageId).walked.order, s.id)
    ensures Travels(ComputeLayout(shapes, pageId), s.id)
  {
    var order := ComputeLayout(shapes, pageId).walked.order;
    WholeIsSelfContained(shapes, pageId, s, MovingOne(order, s.id), 1);
    CoursesAreListed(order, MovingOne(order, s.id));
    SelfContainedGoes(order, MovingOne(order, s.id), Inward(order, s.id), 1);
  }

  /* ------------------------------------------------------------------ closing and tied */

  lemma ContainerIsTouching(l: Layout, id: Id, targetId: Id)
    requires GroupsHold(l) && targetId in Around(l.walked.order, id, DEPTH_CAP) && id in l.bounds && Proper(l.bounds[id])
    ensures targetId in l.bounds && GapBetween(l.bounds[id], l.bounds[targetId]) == 0.0
  {
    AroundContains(l, id, DEPTH_CAP, targetId);
    GapToEnclosing(l.bounds[id], l.bounds[targetId]);
  }

  /** At the edge, or at an anchor in the box. */
  ghost predicate EndsNear(tie: Tie) {
    tie.anchor.Some? ==> 0.0 <= tie.anchor.value.x <= 1.0 && 0.0 <= tie.anchor.value.y <= 1.0
  }

  /** One terminal of the i-th shape, an arrow, is bound to this one. */
  ghost predicate EndsAt(order: seq<Shape>, i: nat, id: Id) {
    i < |order| && order[i].kind.Arrow? &&
    exists terminal ::
      var tie := TieAt(Known(order, i), order[i].kind.line.ties, terminal);
      tie.Some? && tie.value.toId == id && EndsNear(tie.value)
  }

  /** The target is such an arrow, or a group that holds one directly or through groups. */
  ghost predicate Tied(order: seq<Shape>, id: Id, targetId: Id) {
    exists i: nat :: EndsAt(order, i, id) && (targetId == order[i].id || targetId in Around(order, order[i].id, DEPTH_CAP))
  }

  /** How far outside a thin box an arrow may end. */
  function Slack(r: Rect): real {
    Max(Half(r.w) - r.w / 2.0, Half(r.h) - r.h / 2.0)
  }

  ghost predicate Holds(r: Rect, p: Point) {
    r.x <= p.x <= Right(r) && r.y <= p.y <= Bottom(r)
  }

  lemma NearBoxIsTouching(box: Rect, r: Rect, p: Point)
    requires Proper(box) && Near(p, box) && Holds(r, p)
    ensures GapBetween(box, r) <= Slack(box)
  {
  }

  lemma SpannedHolds(p: Point, q: Point, bend: real)
    requires bend >= 0.0
    ensures Holds(Spanned(p, q, bend), p) && Holds(Spanned(p, q, bend), q)
  {
  }

  lemma EndIsNear(b: map<Id, Rect>, tie: Option<Tie>, stored: Point, toward: Point)
    requires tie.Some? && tie.value.toId in b && EndsNear(tie.value) && Proper(b[tie.value.toId])
    ensures Near(EndPoint(PAGE_BOXING, b, tie, stored, toward), b[tie.value.toId])
  {
    if tie.value.anchor.Some? {
      AnchorIsNear(b[tie.value.toId], tie.value.anchor.value);
    } else {
      EdgeIsNear(b[tie.value.toId], toward);
    }
  }

  lemma ArrowHoldsItsEnds(b: map<Id, Rect>, known: set<Id>, f: Frame, line: Line, terminal: Terminal, box: Rect) returns (p: Point)
    requires known <= b.Keys && Proper(box)
    requires var tie := TieAt(known, line.ties, terminal); tie.Some? && EndsNear(tie.value) && b[tie.value.toId] == box
    ensures Near(p, box) && Holds(ArrowBox(PAGE_BOXING, b, known, f, line), p)
  {
    var tail, head := PAGE_BOXING.place(f, line.tail), PAGE_BOXING.place(f, line.head);
    var start, finish := TailOf(PAGE_BOXING, b, known, line, tail, head), HeadOf(PAGE_BOXING, b, known, line, tail, head);
    SpannedHolds(start, finish, Abs(line.bend));
    var tie := TieAt(known, line.ties, terminal);
    match terminal
    case Tail =>
      EndIsNear(b, tie, tail, Aim(b, TieAt(known, line.ties, Head), head));
      p := start;
    case Head =>
      EndIsNear(b, tie, head, Aim(b, TieAt(known, line.ties, Tail), tail));
      p := finish;
  }

  /** In any layout, what is tied to a shape reaches its box. */
  lemma TiedIsTouching(shapes: seq<Shape>, l: Layout, id: Id, targetId: Id)
    requires Settled(shapes, l) && Tied(l.walked.order, id, targetId) && id in l.bounds && Proper(l.bounds[id])
    ensures targetId in l.bounds && GapBetween(l.bounds[id], l.bounds[targetId]) <= Slack(l.bounds[id])
  {
    var order, b := l.walked.order, l.bounds;
    var i: nat :| EndsAt(order, i, id) && (targetId == order[i].id || targetId in Around(order, order[i].id, DEPTH_CAP));
    var a := order[i];
    var terminal :| var tie := TieAt(Known(order, i), a.kind.line.ties, terminal); tie.Some? && tie.value.toId == id && EndsNear(tie.value);
    assert Drawn(PAGE_BOXING, l.walked, b, i);
    var p := ArrowHoldsItsEnds(b, Known(order, i), FrameAt(l.walked, a.id), a.kind.line, terminal, b[id]);
    if targetId != a.id {
      SettledGroupsHold(shapes, l);
      AroundContains(l, a.id, DEPTH_CAP, targetId);
    }
    NearBoxIsTouching(b[id], b[targetId], p);
  }

  /** Binding and containment are read off records that a move leaves as they are. */
  lemma TiedIsKept(order: seq<Shape>, order': seq<Shape>, id: Id, targetId: Id)
    requires SameRecords(order, order') && Tied(order, id, targetId)
    ensures Tied(order', id, targetId)
  {
    var i: nat :| EndsAt(order, i, id) && (targetId == order[i].id || targetId in Around(order, order[i].id, DEPTH_CAP));
    assert SameRecord(order[i], order'[i]);
    SameKnown(order, order', i);
    SameAround(order, order', order[i].id, DEPTH_CAP);
    assert EndsAt(order', i, id);
  }

  lemma SameIds(order: seq<Shape>, order': seq<Shape>)
    requires SameRecords(order, order')
    ensures BoxIds(order') == BoxIds(order) && ArrowIds(order') == ArrowIds(order)
  {
    forall i | 0 <= i < |order|
      ensures order[i].id == order'[i].id && order[i].kind == order'[i].kind && order[i] in order && order'[i] in order'
    {
      assert SameRecord(order[i], order'[i]);
    }
    forall s | s in order
      ensures exists x :: x in order' && x.id == s.id && x.kind == s.kind
    {
      var i :| 0 <= i < |order| && order[i] == s;
      assert order'[i] in order';
    }
    forall s | s in order'
      ensures exists x :: x in order && x.id == s.id && x.kind == s.kind
    {
      var i :| 0 <= i < |order'| && order'[i] == s;
      assert order[i] in order;
    }
  }

  lemma SameKnown(order: seq<Shape>, order': seq<Shape>, i: nat)
    requires SameRecords(order, order') && i <= |order|
    ensures Known(order', i) == Known(order, i)
  {
    SameIds(order, order');
    SameIds(order[..i], order'[..i]);
  }

  /* -------------------------------------------------------------- what comes of placing */

  ghost predicate Placeable(shapes: seq<Shape>, pageId: Id, s: Shape, t: Shape, gap: real) {
    var l := ComputeLayout(shapes, pageId);
    && UniqueIds(shapes, pageId) && UnitTurns(shapes) && gap >= SPACING_TOLERANCE
    && s in l.walked.order && t in l.walked.order && Travels(l, s.id) && Steered(l.walked, s) && |Blockers(l, pageId, [s.id])| <= SLIDE_CAP
  }

  /** Whether the verifier finds the spacing kept once the shape is placed. */
  ghost predicate KeepsSpacing(shapes: seq<Shape>, pageId: Id, side: Side, s: Shape, t: Shape, gap: real, align: Align)
    requires var l := ComputeLayout(shapes, pageId); s.id in l.bounds && t.id in l.bounds
  {
    SpacedOut(ComputeLayout(Placing(shapes, pageId, side, s, t.id, gap, align), pageId), pageId, [s.id], [(s.id, t.id)], gap)
  }

  /** The layout afterwards is settled like any other, and its spacing is the gap to the target. */
  lemma PlacedIsSettled(shapes: seq<Shape>, pageId: Id, side: Side, s: Shape, t: Shape, gap: real, align: Align)
    requires Placeable(shapes, pageId, s, t, gap)
    ensures var l := ComputeLayout(shapes, pageId);
            && s.id in l.bounds && t.id in l.bounds
            && var shapes' := Placing(shapes, pageId, side, s, t.id, gap, align);
            var after := ComputeLayout(shapes', pageId);
            && Settled(shapes', after) && SameRecords(l.walked.order, after.walked.order)
            && s.id in after.bounds && t.id in after.bounds && Proper(after.bounds[s.id])
            && after.bounds[s.id].w == l.bounds[s.id].w && after.bounds[s.id].h == l.bounds[s.id].h
            && (KeepsSpacing(shapes, pageId, side, s, t, gap, align) <==>
                GapBetween(after.bounds[s.id], after.bounds[t.id]) >= gap - SPACING_TOLERANCE)
  {
    var l := ComputeLayout(shapes, pageId);
    PlacementIsMade(shapes, pageId, side, s, t, gap, align);
    var d := Needed(l, pageId, side, s.id, t.id, gap, align);
    MovesKeepIds(shapes, pageId, l, s, d.x, d.y);
    LayoutIsSettled(Placing(shapes, pageId, side, s, t.id, gap, align), pageId);
    LayoutIsProper(Placing(shapes, pageId, side, s, t.id, gap, align), pageId);
    OnePairSpaced(ComputeLayout(Placing(shapes, pageId, side, s, t.id, gap, align), pageId), pageId, s.id, t.id, gap);
  }

  /** A group around the shape closes on it again. */
  lemma GroupAroundClosesAgain(shapes: seq<Shape>, pageId: Id, side: Side, s: Shape, t: Shape, gap: real, align: Align)
    requires Placeable(shapes, pageId, s, t, gap) && t.id in Around(ComputeLayout(shapes, pageId).walked.order, s.id, DEPTH_CAP)
    ensures s.id in ComputeLayout(shapes, pageId).bounds && t.id in ComputeLayout(shapes, pageId).bounds
    ensures KeepsSpacing(shapes, pageId, side, s, t, gap, align) <==> gap <= SPACING_TOLERANCE
  {
    PlacedIsSettled(shapes, pageId, side, s, t, gap, align);
    var shapes' := Placing(shapes, pageId, side, s, t.id, gap, align);
    SameAround(ComputeLayout(shapes, pageId).walked.order, ComputeLayout(shapes', pageId).walked.order, s.id, DEPTH_CAP);
    SettledGroupsHold(shapes', ComputeLayout(shapes', pageId));
    ContainerIsTouching(ComputeLayout(shapes', pageId), s.id, t.id);
  }

  lemma GapToInner(a: Rect, inner: Rect, b: Rect)
    requires Inside(inner, a)
    ensures GapBetween(a, b) <= GapBetween(inner, b)
  {
  }

  /** A box that sticks nowhere out of the shape it is under. */
  ghost predicate Within(l: Layout, c: Shape, id: Id) {
    && c in l.walked.order && c.kind == Box && c.id in Inward(l.walked.order, id)
    && c.id in l.bounds && id in l.bounds && Inside(l.bounds[c.id], l.bounds[id])
  }

  lemma WithinTravels(shapes: seq<Shape>, pageId: Id, side: Side, s: Shape, t: Shape, gap: real, align: Align, c: Shape)
    requires Placeable(shapes, pageId, s, t, gap) && Within(ComputeLayout(shapes, pageId), c, s.id)
    ensures var l := ComputeLayout(shapes, pageId);
            && s.id in l.bounds && t.id in l.bounds
            && var after := ComputeLayout(Placing(shapes, pageId, side, s, t.id, gap, align), pageId);
            && s.id in after.bounds && c.id in after.bounds && Inside(after.bounds[c.id], after.bounds[s.id])
            && after.bounds[c.id].w == l.bounds[c.id].w && after.bounds[c.id].h == l.bounds[c.id].h
  {
    var l := ComputeLayout(shapes, pageId);
    PlacementIsMade(shapes, pageId, side, s, t, gap, align);
    var d := PlacedBy(l, pageId, side, s.id, t.id, gap, align);
    BoxFollows(l, ComputeLayout(Placing(shapes, pageId, side, s, t.id, gap, align), pageId), MovingOne(l.walked.order, s.id), [STILL, d], c);
  }

  /**
   * A target that holds an arrow bound to the shape or to a box within it, or is such an arrow, reaches for it wherever
   * it goes.
   */
  lemma TiedTargetFollows(shapes: seq<Shape>, pageId: Id, side: Side, s: Shape, t: Shape, gap: real, align: Align, c: Shape)
    requires Placeable(shapes, pageId, s, t, gap) && Within(ComputeLayout(shapes, pageId), c, s.id)
    requires Tied(ComputeLayout(shapes, pageId).walked.order, c.id, t.id)
    ensures s.id in ComputeLayout(shapes, pageId).bounds && t.id in ComputeLayout(shapes, pageId).bounds
    ensures gap > SPACING_TOLERANCE + Slack(ComputeLayout(shapes, pageId).bounds[c.id]) ==> !KeepsSpacing(shapes, pageId, side, s, t, gap, align)
  {
    PlacedIsSettled(shapes, pageId, side, s, t, gap, align);
    WithinTravels(shapes, pageId, side, s, t, gap, align, c);
    var shapes' := Placing(shapes, pageId, side, s, t.id, gap, align);
    var after := ComputeLayout(shapes', pageId);
    LayoutIsProper(shapes', pageId);
    TiedIsKept(ComputeLayout(shapes, pageId).walked.order, after.walked.order, c.id, t.id);
    TiedIsTouching(shapes', after, c.id, t.id);
    GapToInner(after.bounds[s.id], after.bounds[c.id], after.bounds[t.id]);
  }

  /**
   * Where no arrow is bound across, spacing is kept exactly unless the target travels along from too near or is a group
   * that closes around the shape.
   */
  lemma PlainSpacing(shapes: seq<Shape>, pageId: Id, side: Side, s: Shape, t: Shape, gap: real, align: Align)
    requires Placeable(shapes, pageId, s, t, gap) && NoneAcross(ComputeLayout(shapes, pageId).walked.order, s.id)
    ensures s.id in ComputeLayout(shapes, pageId).bounds && t.id in ComputeLayout(shapes, pageId).bounds
    ensures KeepsSpacing(shapes, pageId, side, s, t, gap, align) <==> SpacingCanHold(ComputeLayout(shapes, pageId), s.id, t.id, gap)
  {
    var l := ComputeLayout(shapes, pageId);
    PlacementIsMade(shapes, pageId, side, s, t, gap, align);
    if t.id !in Inward(l.walked.order, s.id) && t.id in Around(l.walked.order, s.id, DEPTH_CAP) {
      GroupAroundClosesAgain(shapes, pageId, side, s, t, gap, align);
    } else {
      PlainCourses(shapes, pageId, s);
      PlacementIsCertified(shapes, pageId, side, s, t, gap, align);
    }
  }
}
