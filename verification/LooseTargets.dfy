/**
 * Targets made from what moves and what stays. Their boxes change, but as long as whatever moves in them ends inside the
 * box they had, they end inside it too, and a shape placed clear of that box stays clear of them.
 */
module LooseTargets {
  import opened Wrappers
  import opened Geometry
  import opened Sliding
  import opened Arrange
  import opened Transforms
  import opened LayoutTree
  import opened LayoutBounds
  import opened Drift
  import opened Arrows
  import opened Containment
  import opened Placement
  import opened Certification
  import opened Spacing

  /* ----------------------------------------------------------------- known beforehand */

  /** The shape is the target, or in it directly or through groups. */
  ghost predicate PartOf(order: seq<Shape>, id: Id, targetId: Id) {
    id == targetId || targetId in Around(order, id, DEPTH_CAP)
  }

  /** Everywhere an arrow may end that is bound to the edge of `r`. */
  function Rim(r: Rect): Rect {
    var c := Centre(r);
    Rect(c.x - Half(r.w), c.y - Half(r.h), 2.0 * Half(r.w), 2.0 * Half(r.h))
  }

  /** What is left of a box for an arrow's ends, its bend taken off on every side. */
  function Room(r: Rect, bend: real): Rect {
    Rect(r.x + bend, r.y + bend, r.w - 2.0 * bend, r.h - 2.0 * bend)
  }

  function DeltaOf(deltas: seq<Point>, n: nat): Point {
    if n < |deltas| then deltas[n] else STILL
  }

  /** A terminal ends in this room: carried with its own frame, or bound to what goes with a carrier, there. */
  ghost predicate EndStays(l: Layout, courses: map<Id, Course>, deltas: seq<Point>, tie: Option<Tie>, stored: Point, own: nat, room: Rect) {
    match tie
    case None => var d := DeltaOf(deltas, own); Holds(room, Nudged(stored, d.x, d.y))
    case Some(end) =>
      && end.toId in courses && end.toId in l.bounds && courses[end.toId].Goes?
      && var d := DeltaOf(deltas, courses[end.toId].carrier);
         var r := Shift(l.bounds[end.toId], d.x, d.y);
         if end.anchor.Some? then Holds(room, Anchored(r, end.anchor.value)) else Inside(Rim(r), room)
  }

  ghost predicate ArrowStays(l: Layout, courses: map<Id, Course>, carriers: map<Id, nat>, deltas: seq<Point>, i: nat, r: Rect)
    requires i < |l.walked.order| && l.walked.order[i].kind.Arrow?
  {
    var a := l.walked.order[i];
    var line, known, f, own := a.kind.line, Known(l.walked.order, i), FrameAt(l.walked, a.id), CarrierOf(carriers, a.id);
    && EndStays(l, courses, deltas, TieAt(known, line.ties, Tail), PlacePoint(f, line.tail), own, Room(r, Abs(line.bend)))
    && EndStays(l, courses, deltas, TieAt(known, line.ties, Head), PlacePoint(f, line.head), own, Room(r, Abs(line.bend)))
  }

  /** What goes with a carrier ends inside `r`, and a loose arrow ends there with both its ends. */
  ghost predicate StaysIn(l: Layout, courses: map<Id, Course>, carriers: map<Id, nat>, deltas: seq<Point>, i: nat, r: Rect)
    requires i < |l.walked.order|
  {
    var x := l.walked.order[i];
    && x.id in courses && x.id in l.bounds
    && match courses[x.id]
       case Goes(n) => var d := DeltaOf(deltas, n); Inside(Shift(l.bounds[x.id], d.x, d.y), r)
       case Loose => x.kind.Arrow? ==> ArrowStays(l, courses, carriers, deltas, i, r)
  }

  /** Everything the target is made from ends inside the box the target has. */
  ghost predicate KeepsInside(l: Layout, carriers: map<Id, nat>, deltas: seq<Point>, targetId: Id) {
    && targetId in l.bounds
    && forall i :: 0 <= i < |l.walked.order| && PartOf(l.walked.order, l.walked.order[i].id, targetId) ==>
         StaysIn(l, Courses(l.walked.order, carriers), carriers, deltas, i, l.bounds[targetId])
  }

  /* -------------------------------------------------------------------- and then found */

  lemma {:induction false} AroundWithin(order: seq<Shape>, closed: set<Id>, id: Id, steps: nat)
    requires forall s, g :: s in order && g in order && s.parentId == g.id && g.kind == Group && s.id in closed ==> g.id in closed
    requires id in closed
    ensures Around(order, id, steps) <= closed
    decreases steps
  {
    var g := GroupOf(order, id);
    if steps > 0 && g.Some? {
      var s := Find(order, id).value;
      assert s in order && g.value in order;
      AroundWithin(order, closed, g.value.id, steps - 1);
    }
  }

  /** What is in something in the target is in the target. */
  lemma PartOfPart(shapes: seq<Shape>, pageId: Id, w: Walked, c: Shape, g: Shape, targetId: Id)
    requires IsTree(EnterShape, w, shapes, pageId) && c in w.order && g in w.order && c.parentId == g.id && g.kind == Group
    requires PartOf(w.order, g.id, targetId)
    ensures PartOf(w.order, c.id, targetId)
  {
    var closed := {c.id} + Around(w.order, c.id, DEPTH_CAP);
    assert Hangs(EnterShape, c, w, pageId);
    forall s, x | s in w.order && x in w.order && s.parentId == x.id && x.kind == Group && s.id in closed
      ensures x.id in closed
    {
      AroundContinues(shapes, pageId, w, c.id, DEPTH_CAP, s, x);
    }
    assert g.id in closed;
    AroundWithin(w.order, closed, g.id, DEPTH_CAP);
  }

  lemma RimHolds(r: Rect, p: Point, room: Rect)
    requires Near(p, r) && Inside(Rim(r), room)
    ensures Holds(room, p)
  {
  }

  lemma RoomHolds(r: Rect, p: Point, q: Point, bend: real)
    requires bend >= 0.0 && Holds(Room(r, bend), p) && Holds(Room(r, bend), q)
    ensures Inside(Spanned(p, q, bend), r)
  {
  }

  /** One end of an arrow after the frames have been carried. */
  lemma EndIsHeld(l: Layout, b': map<Id, Rect>, courses: map<Id, Course>, deltas: seq<Point>, tie: Option<Tie>, stored: Point, stored': Point, toward: Point, own: nat, room: Rect)
    requires EndStays(l, courses, deltas, tie, stored, own, room) && AllFollow(l.bounds, b', courses, deltas)
    requires own < |deltas| && stored' == Nudged(stored, deltas[own].x, deltas[own].y)
    ensures (tie.Some? ==> tie.value.toId in b') && Holds(room, EndPoint(PAGE_BOXING, b', tie, stored', toward))
  {
    if tie.Some? {
      var k := tie.value.toId;
      assert Follows(l.bounds[k], b'[k], courses[k], deltas);
      if tie.value.anchor.None? {
        EdgeIsNear(b'[k], toward);
        RimHolds(b'[k], EdgePoint(b'[k], toward), room);
      }
    }
  }

  /** Two layouts of a page, the second drawn as any layout is. */
  ghost predicate CarriedOver(shapes': seq<Shape>, pageId: Id, l: Layout, l': Layout, carriers: map<Id, nat>, deltas: seq<Point>) {
    match l
    case Layout(w, b) =>
      && Shifted(l, l', carriers, deltas) && l' == ComputeLayout(shapes', pageId) && UniqueIds(shapes', pageId) && Settled(shapes', l')
      && Listed(w.order) && forall s :: s in w.order ==> s.id in w.frame && s.id in b
  }

  lemma ArrowIsHeld(shapes': seq<Shape>, pageId: Id, l: Layout, l': Layout, carriers: map<Id, nat>, deltas: seq<Point>, i: nat, r: Rect)
    requires CarriedOver(shapes', pageId, l, l', carriers, deltas) && i < |l.walked.order| && l.walked.order[i].kind.Arrow?
    requires ArrowStays(l, Courses(l.walked.order, carriers), carriers, deltas, i, r)
    ensures var a := l.walked.order[i]; a.id in l'.bounds && Inside(l'.bounds[a.id], r)
  {
    var a, courses := l.walked.order[i], Courses(l.walked.order, carriers);
    var line, known, own := a.kind.line, Known(l.walked.order, i), CarrierOf(carriers, a.id);
    var f, f' := FrameAt(l.walked, a.id), FrameAt(l'.walked, a.id);
    assert a in l.walked.order && SameRecord(a, l'.walked.order[i]);
    SameKnown(l.walked.order, l'.walked.order, i);
    assert Drawn(PAGE_BOXING, l'.walked, l'.bounds, i);
    CarriedFrameCarries(f, deltas[own]);
    ArrowBoxHeld(l, l'.bounds, courses, deltas, known, f, f', line, own, r);
  }

  lemma ArrowBoxHeld(l: Layout, b': map<Id, Rect>, courses: map<Id, Course>, deltas: seq<Point>, known: set<Id>, f: Frame, f': Frame, line: Line, own: nat, r: Rect)
    requires AllFollow(l.bounds, b', courses, deltas) && known <= b'.Keys && own < |deltas| && Carries(PAGE_BOXING, f, f', deltas[own])
    requires EndStays(l, courses, deltas, TieAt(known, line.ties, Tail), PlacePoint(f, line.tail), own, Room(r, Abs(line.bend)))
    requires EndStays(l, courses, deltas, TieAt(known, line.ties, Head), PlacePoint(f, line.head), own, Room(r, Abs(line.bend)))
    ensures Inside(ArrowBox(PAGE_BOXING, b', known, f', line), r)
  {
    var tail, head := PAGE_BOXING.place(f', line.tail), PAGE_BOXING.place(f', line.head);
    var start, finish, room := TieAt(known, line.ties, Tail), TieAt(known, line.ties, Head), Room(r, Abs(line.bend));
    EndIsHeld(l, b', courses, deltas, start, PAGE_BOXING.place(f, line.tail), tail, Aim(b', finish, head), own, room);
    EndIsHeld(l, b', courses, deltas, finish, PAGE_BOXING.place(f, line.head), head, Aim(b', start, tail), own, room);
    RoomHolds(r, TailOf(PAGE_BOXING, b', known, line, tail, head), HeadOf(PAGE_BOXING, b', known, line, tail, head), Abs(line.bend));
  }

  /** A group with nothing listed in it goes with its own frame. */
  lemma EmptyGroupGoes(order: seq<Shape>, carriers: map<Id, nat>, g: Shape)
    requires Listed(order) && g in order && g.kind == Group && forall c :: c in order ==> c.parentId != g.id
    ensures g.id in Courses(order, carriers) && Courses(order, carriers)[g.id].Goes?
  {
    CoursesAreListed(order, carriers);
    SelfContainedGoes(order, carriers, {g.id}, CarrierOf(carriers, g.id));
  }

  /** The laid-out members of a group are listed after it. */
  lemma MemberIsLater(shapes: seq<Shape>, pageId: Id, l: Layout, i: nat, c: Shape) returns (j: nat)
    requires l == ComputeLayout(shapes, pageId) && UniqueIds(shapes, pageId) && i < |l.walked.order|
    requires c in shapes && c.parentId == l.walked.order[i].id && c.id in l.bounds
    ensures i < j < |l.walked.order| && l.walked.order[j] == c
  {
    var w := l.walked;
    WalkedPageIsTree(EnterShape, shapes, pageId);
    ShapesAreListed(PAGE_BOXING, w);
    GroupPassListed(shapes, w, |w.order|, ArrowBoxes(PAGE_BOXING, w, w.order, ShapeBoxes(PAGE_BOXING, w, w.order)));
    ListedHaveFrames(shapes, pageId);
    BoxedChildIsListed(shapes, w, l.bounds, c);
    j :| 0 <= j < |w.order| && w.order[j] == c;
  }

  lemma {:induction false} LaidOutComesFrom(list: seq<Shape>, b: map<Id, Rect>, r: Rect) returns (s: Shape)
    requires r in LaidOut(list, b)
    ensures s in list && s.id in b && b[s.id] == r
    decreases |list|
  {
    s := list[|list| - 1];
    if r in LaidOut(list[..|list| - 1], b) {
      s := LaidOutComesFrom(list[..|list| - 1], b, r);
    }
  }

  /** A group all of whose laid-out members are inside `r`, and that has one, is inside `r`. */
  lemma GroupIsHeld(shapes: seq<Shape>, w: Walked, b: map<Id, Rect>, g: Shape, c: Shape, r: Rect)
    requires c in shapes && c.parentId == g.id && c.id in b
    requires forall s :: s in shapes && s.parentId == g.id && s.id in b ==> Inside(b[s.id], r)
    ensures Inside(GroupBox(shapes, w, b, g), r)
  {
    var list := Children(shapes, g.id);
    ChildMembers(shapes, g.id);
    SomeLaidOut(list, b, c);
    forall q | q in LaidOut(list, b)
      ensures Inside(q, r)
    {
      var s := LaidOutComesFrom(list, b, q);
    }
    UnionIsLeastBox(LaidOut(list, b));
  }

  /** The page before, its layout, and the part of it that ends inside `r`. */
  ghost predicate PartStays(shapes: seq<Shape>, pageId: Id, l: Layout, carriers: map<Id, nat>, deltas: seq<Point>, targetId: Id, r: Rect) {
    && l == ComputeLayout(shapes, pageId) && UniqueIds(shapes, pageId)
    && forall i :: 0 <= i < |l.walked.order| && PartOf(l.walked.order, l.walked.order[i].id, targetId) ==>
         StaysIn(l, Courses(l.walked.order, carriers), carriers, deltas, i, r)
  }

  lemma {:induction false} PartIsHeld(shapes: seq<Shape>, shapes': seq<Shape>, pageId: Id, l: Layout, l': Layout, carriers: map<Id, nat>, deltas: seq<Point>,
                                      targetId: Id, r: Rect, i: nat)
    requires CarriedOver(shapes', pageId, l, l', carriers, deltas) && PartStays(shapes, pageId, l, carriers, deltas, targetId, r)
    requires i < |l.walked.order| && PartOf(l.walked.order, l.walked.order[i].id, targetId)
    ensures var x := l.walked.order[i]; x.id in l'.bounds && Inside(l'.bounds[x.id], r)
    decreases |l.walked.order| - i
  {
    var x, courses := l.walked.order[i], Courses(l.walked.order, carriers);
    assert StaysIn(l, courses, carriers, deltas, i, r);
    assert x.id in l.bounds && Follows(l.bounds[x.id], l'.bounds[x.id], courses[x.id], deltas);
    if courses[x.id].Loose? {
      if x.kind.Arrow? {
        ArrowIsHeld(shapes', pageId, l, l', carriers, deltas, i, r);
      } else {
        LooseIsGroup(l, carriers, x);
        LooseGroupIsHeld(shapes, shapes', pageId, l, l', carriers, deltas, targetId, r, i);
      }
    }
  }

  lemma LooseIsGroup(l: Layout, carriers: map<Id, nat>, x: Shape)
    requires Listed(l.walked.order) && x in l.walked.order && x.id in Courses(l.walked.order, carriers)
    requires Courses(l.walked.order, carriers)[x.id].Loose? && !x.kind.Arrow?
    ensures x.kind == Group
  {
    if x.kind == Box {
      SelfContainedGoes(l.walked.order, carriers, {x.id}, CarrierOf(carriers, x.id));
      assert false;
    }
  }

  lemma {:induction false} LooseGroupIsHeld(shapes: seq<Shape>, shapes': seq<Shape>, pageId: Id, l: Layout, l': Layout, carriers: map<Id, nat>, deltas: seq<Point>,
                                            targetId: Id, r: Rect, i: nat)
    requires CarriedOver(shapes', pageId, l, l', carriers, deltas) && PartStays(shapes, pageId, l, carriers, deltas, targetId, r)
    requires i < |l.walked.order| && PartOf(l.walked.order, l.walked.order[i].id, targetId) && l.walked.order[i].kind == Group
    requires var courses := Courses(l.walked.order, carriers); l.walked.order[i].id in courses && courses[l.walked.order[i].id].Loose?
    ensures var x := l.walked.order[i]; x.id in l'.bounds && Inside(l'.bounds[x.id], r)
    decreases |l.walked.order| - i, 0
  {
    var g, g' := l.walked.order[i], l'.walked.order[i];
    assert SameRecord(g, g') && g in l.walked.order && g' in l'.walked.order;
    WalkedPageIsTree(EnterShape, shapes, pageId);
    forall c | c in shapes' && c.parentId == g'.id && c.id in l'.bounds
      ensures Inside(l'.bounds[c.id], r)
    {
      var j := MemberIsLater(shapes', pageId, l', i, c);
      var s := l.walked.order[j];
      assert SameRecord(s, c) && s in l.walked.order;
      PartOfPart(shapes, pageId, l.walked, s, g, targetId);
      PartIsHeld(shapes, shapes', pageId, l, l', carriers, deltas, targetId, r, j);
    }
    if forall c :: c in l.walked.order ==> c.parentId != g.id {
      EmptyGroupGoes(l.walked.order, carriers, g);
      assert false;
    }
    var c :| c in l.walked.order && c.parentId == g.id;
    var j :| 0 <= j < |l.walked.order| && l.walked.order[j] == c;
    assert SameRecord(c, l'.walked.order[j]) && l'.walked.order[j] in l'.walked.order;
    GroupIsHeld(shapes', l'.walked, l'.bounds, g', l'.walked.order[j], r);
  }

  /* ------------------------------------------------------------------------ spacing */

  lemma GapToInnerTarget(a: Rect, b: Rect, inner: Rect)
    requires Inside(inner, b)
    ensures GapBetween(a, inner) >= GapBetween(a, b)
  {
  }

  /**
   * A target that is made from what moves and what stays keeps the spacing if everything it is made from ends inside the
   * box it has now.
   */
  lemma LooseTargetKeepsSpacing(shapes: seq<Shape>, pageId: Id, side: Side, s: Shape, t: Shape, gap: real, align: Align)
    requires Placeable(shapes, pageId, s, t, gap)
    requires var l := ComputeLayout(shapes, pageId);
             && s.id in l.bounds && t.id in l.bounds
             && KeepsInside(l, MovingOne(l.walked.order, s.id), [STILL, PlacedBy(l, pageId, side, s.id, t.id, gap, align)], t.id)
    ensures KeepsSpacing(shapes, pageId, side, s, t, gap, align)
  {
    var l := ComputeLayout(shapes, pageId);
    var d := PlacedBy(l, pageId, side, s.id, t.id, gap, align);
    var shapes' := Placing(shapes, pageId, side, s, t.id, gap, align);
    var after := ComputeLayout(shapes', pageId);
    PlacedIsSettled(shapes, pageId, side, s, t, gap, align);
    PlacementIsMade(shapes, pageId, side, s, t, gap, align);
    PlacedIsCarriedOver(shapes, pageId, side, s, t, gap, align);
    var i :| 0 <= i < |l.walked.order| && l.walked.order[i] == t;
    PartIsHeld(shapes, shapes', pageId, l, after, MovingOne(l.walked.order, s.id), [STILL, d], t.id, l.bounds[t.id], i);
    LandsApart(l, pageId, side, s.id, t.id, gap, align, after.bounds[s.id]);
    GapToInnerTarget(after.bounds[s.id], l.bounds[t.id], after.bounds[t.id]);
  }

  lemma LandsApart(l: Layout, pageId: Id, side: Side, id: Id, targetId: Id, gap: real, align: Align, box: Rect)
    requires id in l.bounds && targetId in l.bounds && gap >= SPACING_TOLERANCE && |Blockers(l, pageId, [id])| <= SLIDE_CAP
    requires Arrived(box, Landing(l, pageId, side, id, targetId, gap, align))
    ensures GapBetween(box, l.bounds[targetId]) >= gap - SPACING_TOLERANCE
  {
    LandingIsClear(l, pageId, side, id, targetId, gap, align);
    if box != Landing(l, pageId, side, id, targetId, gap, align) {
      NearlyThere(Landing(l, pageId, side, id, targetId, gap, align), box, l.bounds[targetId], gap);
    }
  }

  lemma PlacedIsCarriedOver(shapes: seq<Shape>, pageId: Id, side: Side, s: Shape, t: Shape, gap: real, align: Align)
    requires Placeable(shapes, pageId, s, t, gap)
    ensures var l := ComputeLayout(shapes, pageId);
            && s.id in l.bounds && t.id in l.bounds
            && var shapes', d := Placing(shapes, pageId, side, s, t.id, gap, align), PlacedBy(l, pageId, side, s.id, t.id, gap, align);
            CarriedOver(shapes', pageId, l, ComputeLayout(shapes', pageId), MovingOne(l.walked.order, s.id), [STILL, d])
  {
    var l := ComputeLayout(shapes, pageId);
    PlacementIsMade(shapes, pageId, side, s, t, gap, align);
    PlacedIsSettled(shapes, pageId, side, s, t, gap, align);
    ListedHaveFrames(shapes, pageId);
    LayoutIsSettled(shapes, pageId);
    var d := Needed(l, pageId, side, s.id, t.id, gap, align);
    MovesKeepIds(shapes, pageId, l, s, d.x, d.y);
  }
}
