/** Writing a shape back through its containers, and what that changes on the page. */
module Placement {
  import opened Wrappers
  import opened Geometry
  import opened Transforms
  import opened LayoutTree
  import opened LayoutBounds
  import opened Drift
  import opened Arrows
  import opened Containment
  import opened MovedLayout

  datatype Layout = Layout(walked: Walked, bounds: map<Id, Rect>)

  function MeasureBox(f: Frame, r: Rect): Rect {
    Aabb(f.matrix, r)
  }

  function PlacePoint(f: Frame, p: Point): Point {
    Apply(f.matrix, p)
  }

  const PAGE_BOXING := Boxing(MeasureBox, PlacePoint, EdgePoint)

  function ComputeLayout(shapes: seq<Shape>, pageId: Id): Layout {
    var w := WalkPage(EnterShape, shapes, pageId);
    Layout(w, BoundsOf(PAGE_BOXING, shapes, w))
  }

  ghost predicate UnitTurns(shapes: seq<Shape>) {
    forall s :: s in shapes ==> Unit(s.turn)
  }

  /* ------------------------------------------------------------- translating a shape */

  /** The rotation the layout reports: arrows are reported as not turned. */
  function TurnOf(w: Walked, id: Id): Turn {
    var found := Find(w.order, id);
    if found.Some? && found.value.kind.Arrow? then NO_TURN else FrameAt(w, id).turn
  }

  /** The page-space delta is turned back into the frame of the shape's container. */
  function TranslateShape(s: Shape, dx: real, dy: real, l: Layout): Shape {
    var d := IntoFrame(TurnOf(l.walked, s.parentId), dx, dy);
    s.(x := s.x + d.x, y := s.y + d.y)
  }

  /** The records with this one written back. */
  function Written(shapes: seq<Shape>, s: Shape): seq<Shape> {
    MovedAll(shapes, s.id, Point(s.x, s.y))
  }

  /** How far on the page the shape is carried by that. */
  function Displacement(w: Walked, s: Shape, dx: real, dy: real): Point {
    ApplyLinear(Rotation(FrameAt(w, s.parentId).turn), IntoFrame(TurnOf(w, s.parentId), dx, dy))
  }

  /** The shape's container is reported as turned as it is: it is not an arrow that is turned. */
  ghost predicate Steered(w: Walked, s: Shape) {
    TurnOf(w, s.parentId) == FrameAt(w, s.parentId).turn
  }

  function CarriedFrame(f: Frame, dx: real, dy: real): Frame {
    f.(matrix := Carried(f.matrix, dx, dy))
  }

  function PageRules(d: Point): Rules {
    Rules(EnterShape, (f: Frame) => CarriedFrame(f, d.x, d.y))
  }

  lemma EnteringACarriedFrame(f: Frame, s: Shape, dx: real, dy: real)
    ensures EnterShape(CarriedFrame(f, dx, dy), s) == CarriedFrame(EnterShape(f, s), dx, dy)
  {
    CarriedContainer(f.matrix, Local(s.x, s.y, s.turn), dx, dy);
  }

  lemma PageRulesAreRigid(d: Point)
    ensures Rigid(PageRules(d))
  {
    var r := PageRules(d);
    forall f, s
      ensures r.enter(r.carry(f), s) == r.carry(r.enter(f, s))
    {
      EnteringACarriedFrame(f, s, d.x, d.y);
    }
  }

  lemma CarriedFrameCarries(f: Frame, d: Point)
    ensures Carries(PAGE_BOXING, f, CarriedFrame(f, d.x, d.y), d)
  {
    forall r
      ensures MeasureBox(CarriedFrame(f, d.x, d.y), r) == Shift(MeasureBox(f, r), d.x, d.y)
    {
      AabbOfCarried(f.matrix, r, d.x, d.y);
    }
    forall p
      ensures PlacePoint(CarriedFrame(f, d.x, d.y), p) == Nudged(PlacePoint(f, p), d.x, d.y)
    {
      ApplyCarried(f.matrix, p, d.x, d.y);
    }
  }

  lemma PageEdgesFollow()
    ensures EdgesFollow(PAGE_BOXING)
  {
    forall r, p, dx, dy
      ensures EdgePoint(Shift(r, dx, dy), Nudged(p, dx, dy)) == Nudged(EdgePoint(r, p), dx, dy)
    {
      EdgeFollows(r, p, dx, dy);
    }
  }

  /** Frames are rotations by their accumulated turn, at every depth. */
  lemma {:induction false} FramesAreRotations(shapes: seq<Shape>, pageId: Id, w: Walked, s: Shape, depth: nat)
    requires IsTree(EnterShape, w, shapes, pageId) && OnlyListed(w, pageId) && UnitTurns(shapes)
    requires s in w.order && s.id in w.depth && w.depth[s.id] == depth
    ensures var f := FrameAt(w, s.id); f.matrix.linear == Rotation(f.turn) && Unit(f.turn)
    decreases depth
  {
    assert Hangs(EnterShape, s, w, pageId);
    if s.parentId != pageId {
      var p := ListedShape(w.order, s.parentId);
      FramesAreRotations(shapes, pageId, w, p, depth - 1);
    }
    var container := FrameAt(w, s.parentId);
    ComposedTurn(container.turn, s.turn);
    TurnsStayUnit(container.turn, s.turn);
  }

  lemma ContainerIsRotation(shapes: seq<Shape>, pageId: Id, w: Walked, s: Shape)
    requires IsTree(EnterShape, w, shapes, pageId) && OnlyListed(w, pageId) && UnitTurns(shapes) && s in w.order
    ensures var f := FrameAt(w, s.parentId); f.matrix.linear == Rotation(f.turn) && Unit(f.turn)
  {
    assert Hangs(EnterShape, s, w, pageId);
    if s.parentId != pageId {
      var p := ListedShape(w.order, s.parentId);
      FramesAreRotations(shapes, pageId, w, p, w.depth[p.id]);
    }
  }

  lemma TranslationCarries(container: Frame, reported: Turn, s: Shape, dx: real, dy: real)
    requires container.matrix.linear == Rotation(container.turn)
    ensures var d := IntoFrame(reported, dx, dy); var e := ApplyLinear(Rotation(container.turn), d);
            EnterShape(container, s.(x := s.x + d.x, y := s.y + d.y)) == CarriedFrame(EnterShape(container, s), e.x, e.y)
  {
    var d := IntoFrame(reported, dx, dy);
    NudgedInFrame(container.matrix, Local(s.x, s.y, s.turn), d);
    assert Local(s.x + d.x, s.y + d.y, s.turn) == Carried(Local(s.x, s.y, s.turn), d.x, d.y);
  }

  /** The displacement is the delta asked for, unless the shape is in an arrow that is turned and is moved at all. */
  lemma DisplacementIsExactExactlyWhen(shapes: seq<Shape>, pageId: Id, s: Shape, dx: real, dy: real)
    requires UnitTurns(shapes) && s in ComputeLayout(shapes, pageId).walked.order
    ensures var w := ComputeLayout(shapes, pageId).walked;
            Displacement(w, s, dx, dy) == Point(dx, dy) <==> Steered(w, s) || (dx == 0.0 && dy == 0.0)
  {
    var w := ComputeLayout(shapes, pageId).walked;
    WalkedPageIsTree(EnterShape, shapes, pageId);
    WalkedPageIsComplete(EnterShape, shapes, pageId);
    ContainerIsRotation(shapes, pageId, w, s);
    if Steered(w, s) {
      TurnedIntoFrame(FrameAt(w, s.parentId).turn, dx, dy);
    } else {
      UnturnedIsExactExactlyWhen(FrameAt(w, s.parentId).turn, dx, dy);
    }
  }

  /* --------------------------------------------------------- the groups around a shape */

  /** The group directly around the shape, if its container is one. */
  function GroupOf(order: seq<Shape>, id: Id): Option<Shape> {
    match Find(order, id)
    case None => None
    case Some(s) =>
      var g := Find(order, s.parentId);
      if g.Some? && g.value.kind == Group then g else None
  }

  /** Upwards from `id`, containers for as long as they are groups: their boxes follow what they contain. */
  function Around(order: seq<Shape>, id: Id, steps: nat): set<Id>
    decreases steps
  {
    var g := GroupOf(order, id);
    if steps == 0 || g.None? then {} else {g.value.id} + Around(order, g.value.id, steps - 1)
  }

  /** Every box is there, every arrow ends where it is bound, and every group's box is the union of its members'. */
  ghost predicate Settled(shapes: seq<Shape>, l: Layout) {
    match l
    case Layout(w, bounds) =>
      && (forall s :: s in w.order ==> s in shapes && s.id in bounds)
      && ArrowsDrawn(PAGE_BOXING, w, bounds, |w.order|)
      && (forall g :: g in w.order && g.kind == Group ==> bounds[g.id] == GroupBox(shapes, w, bounds, g))
  }

  lemma LayoutIsSettled(shapes: seq<Shape>, pageId: Id)
    requires UniqueIds(shapes, pageId)
    ensures Settled(shapes, ComputeLayout(shapes, pageId))
  {
    GroupsAreUnions(EnterShape, PAGE_BOXING, shapes, pageId);
    var w, b := WalkPage(EnterShape, shapes, pageId), ComputeLayout(shapes, pageId).bounds;
    WalkedPageIsTree(EnterShape, shapes, pageId);
    forall s | s in w.order
      ensures s in shapes && s.id in b
    {
      assert Hangs(EnterShape, s, w, pageId);
      var i :| 0 <= i < |w.order| && w.order[i] == s;
      assert s.kind.Arrow? ==> Drawn(PAGE_BOXING, w, b, i);
      assert s.kind == Box || s.kind == Group || s.kind.Arrow?;
    }
  }

  lemma GroupHoldsShape(shapes: seq<Shape>, l: Layout, id: Id)
    requires Settled(shapes, l) && GroupOf(l.walked.order, id).Some?
    ensures var g := GroupOf(l.walked.order, id).value;
            id in l.bounds && g.id in l.bounds && Inside(l.bounds[id], l.bounds[g.id])
  {
    var s, g := Find(l.walked.order, id).value, GroupOf(l.walked.order, id).value;
    GroupContainsMember(shapes, l.walked, l.bounds, g, s);
  }

  /** Whatever is in a group has its box inside the group's. */
  ghost predicate GroupsHold(l: Layout) {
    match l
    case Layout(w, bounds) =>
      forall id :: GroupOf(w.order, id).Some? ==> HeldBy(bounds, id, GroupOf(w.order, id).value.id)
  }

  ghost predicate HeldBy(bounds: map<Id, Rect>, id: Id, groupId: Id) {
    id in bounds && groupId in bounds && Inside(bounds[id], bounds[groupId])
  }

  lemma SettledGroupsHold(shapes: seq<Shape>, l: Layout)
    requires Settled(shapes, l)
    ensures GroupsHold(l)
  {
    forall id | GroupOf(l.walked.order, id).Some?
      ensures HeldBy(l.bounds, id, GroupOf(l.walked.order, id).value.id)
    {
      GroupHoldsShape(shapes, l, id);
    }
  }

  lemma {:induction false} AroundContains(l: Layout, id: Id, steps: nat, a: Id)
    requires GroupsHold(l) && a in Around(l.walked.order, id, steps)
    ensures HeldBy(l.bounds, id, a)
    decreases steps
  {
    var g := GroupOf(l.walked.order, id).value;
    if a != g.id {
      AroundContains(l, g.id, steps - 1, a);
      InsideIsTransitive(l.bounds[id], l.bounds[g.id], l.bounds[a]);
    }
  }

  lemma InsideIsTransitive(a: Rect, b: Rect, c: Rect)
    requires Inside(a, b) && Inside(b, c)
    ensures Inside(a, c)
  {
  }

  /* ----------------------------------------------------- what carrying frames changes */

  /** The delta of what stays. */
  const STILL := Point(0.0, 0.0)

  /** The same walk over the same records, each frame carried by its carrier's delta. */
  ghost predicate FramesCarried(w: Walked, w': Walked, carriers: map<Id, nat>, deltas: seq<Point>) {
    match w
    case Walked(order, frame, depth) =>
      && SameRecords(order, w'.order) && w'.depth == depth && w'.frame.Keys == frame.Keys
      && (forall k :: CarrierOf(carriers, k) < |deltas|)
      && (forall k :: k in frame ==> w'.frame[k] == CarriedFrame(frame[k], deltas[CarrierOf(carriers, k)].x, deltas[CarrierOf(carriers, k)].y))
  }

  /** One layout next to another: frames carried, and every box that goes with a carrier moved by its delta. */
  ghost predicate Shifted(l: Layout, l': Layout, carriers: map<Id, nat>, deltas: seq<Point>) {
    match l
    case Layout(w, b) => FramesCarried(w, l'.walked, carriers, deltas) && AllFollow(b, l'.bounds, Courses(w.order, carriers), deltas)
  }

  lemma FramesDrift(w: Walked, w': Walked, carriers: map<Id, nat>, deltas: seq<Point>)
    requires FramesCarried(w, w', carriers, deltas) && forall s :: s in w.order ==> s.id in w.frame
    ensures Drifted(PAGE_BOXING, w, w', carriers, deltas)
  {
    PageEdgesFollow();
    forall i | 0 <= i < |w.order|
      ensures CarriedOne(PAGE_BOXING, w, w', carriers, deltas, w.order[i].id)
    {
      assert w.order[i] in w.order;
      CarriedFrameCarries(FrameAt(w, w.order[i].id), deltas[CarrierOf(carriers, w.order[i].id)]);
    }
  }

  lemma ListedHaveFrames(shapes: seq<Shape>, pageId: Id)
    ensures var w := ComputeLayout(shapes, pageId).walked;
            Listed(w.order) && forall s :: s in w.order ==> s in shapes && s.id in w.frame
  {
    var w := WalkPage(EnterShape, shapes, pageId);
    WalkedPageIsTree(EnterShape, shapes, pageId);
    forall s | s in w.order
      ensures s in shapes && s.id in w.frame
    {
      assert Hangs(EnterShape, s, w, pageId);
    }
  }

  /** Boxes follow frames: what the records say of a box's course comes true in the recomputed layout. */
  lemma LayoutFollows(shapes: seq<Shape>, shapes': seq<Shape>, pageId: Id, carriers: map<Id, nat>, deltas: seq<Point>)
    requires UniqueIds(shapes, pageId) && SameRecords(shapes, shapes')
    requires FramesCarried(ComputeLayout(shapes, pageId).walked, ComputeLayout(shapes', pageId).walked, carriers, deltas)
    ensures Shifted(ComputeLayout(shapes, pageId), ComputeLayout(shapes', pageId), carriers, deltas)
  {
    var w, w' := ComputeLayout(shapes, pageId).walked, ComputeLayout(shapes', pageId).walked;
    ListedHaveFrames(shapes, pageId);
    FramesDrift(w, w', carriers, deltas);
    BoundsFollow(PAGE_BOXING, shapes, shapes', w, w', carriers, deltas);
  }

  /* ------------------------------------------------------------------- the forecast */

  /** The walk with its frames carried, without walking again. */
  function CarriedWalk(w: Walked, carriers: map<Id, nat>, deltas: seq<Point>): Walked
    requires forall k :: CarrierOf(carriers, k) < |deltas|
  {
    w.(frame := map k | k in w.frame :: CarriedFrame(w.frame[k], deltas[CarrierOf(carriers, k)].x, deltas[CarrierOf(carriers, k)].y))
  }

  /** Every box as it will be, from the frames of the old layout. */
  function Forecast(shapes: seq<Shape>, w: Walked, carriers: map<Id, nat>, deltas: seq<Point>): map<Id, Rect>
    requires forall k :: CarrierOf(carriers, k) < |deltas|
  {
    BoundsOf(PAGE_BOXING, shapes, CarriedWalk(w, carriers, deltas))
  }

  lemma CarriedNowhere(f: Frame)
    ensures CarriedFrame(f, 0.0, 0.0) == f
  {
  }

  /** Where nothing is carried, nothing changes. */
  lemma NothingDrifts(shapes: seq<Shape>, shapes': seq<Shape>, w: Walked, w': Walked)
    requires Compared(PAGE_BOXING, shapes, shapes', w, w', map[], [STILL]) && Listed(w.order)
    ensures BoundsOf(PAGE_BOXING, shapes', w') == BoundsOf(PAGE_BOXING, shapes, w)
  {
    var b, b', c := BoundsOf(PAGE_BOXING, shapes, w), BoundsOf(PAGE_BOXING, shapes', w'), Courses(w.order, map[]);
    BoundsFollow(PAGE_BOXING, shapes, shapes', w, w', map[], [STILL]);
    var all := c.Keys + set s | s in w.order :: s.id;
    SelfContainedGoes(w.order, map[], all, 0);
    forall k | k in b
      ensures b'[k] == b[k]
    {
      assert Follows(b[k], b'[k], c[k], [STILL]);
    }
  }

  lemma ForecastIsExact(shapes: seq<Shape>, shapes': seq<Shape>, pageId: Id, carriers: map<Id, nat>, deltas: seq<Point>)
    requires UniqueIds(shapes, pageId) && SameRecords(shapes, shapes')
    requires FramesCarried(ComputeLayout(shapes, pageId).walked, ComputeLayout(shapes', pageId).walked, carriers, deltas)
    ensures ComputeLayout(shapes', pageId).bounds == Forecast(shapes, ComputeLayout(shapes, pageId).walked, carriers, deltas)
  {
    var w, w' := ComputeLayout(shapes, pageId).walked, ComputeLayout(shapes', pageId).walked;
    var v := CarriedWalk(w, carriers, deltas);
    ListedHaveFrames(shapes, pageId);
    forall f: Frame
      ensures CarriedFrame(f, 0.0, 0.0) == f
    {
      CarriedNowhere(f);
    }
    assert FramesCarried(v, w', map[], [STILL]);
    FramesDrift(v, w', map[], [STILL]);
    NothingDrifts(shapes, shapes', v, w');
  }

  /* ----------------------------------------------------- what a translation changes */

  /** The moved shape and everything under it are carried, and nothing else. */
  function MovingOne(order: seq<Shape>, id: Id): map<Id, nat> {
    map k | k in Inward(order, id) :: 1
  }

  ghost predicate MovedBy(l: Layout, l': Layout, id: Id, dx: real, dy: real) {
    Shifted(l, l', MovingOne(l.walked.order, id), [STILL, Point(dx, dy)])
  }

  /** The translation of `s` as a relocation of the layout's walk. */
  function TranslationOf(shapes: seq<Shape>, l: Layout, s: Shape, dx: real, dy: real): Relocation {
    var s' := TranslateShape(s, dx, dy, l);
    Relocation(PageRules(Displacement(l.walked, s, dx, dy)), shapes, l.walked, s, Point(s'.x, s'.y), Inward(l.walked.order, s.id))
  }

  lemma TranslationMovesFrame(shapes: seq<Shape>, pageId: Id, l: Layout, s: Shape, dx: real, dy: real)
    requires IsTree(EnterShape, l.walked, shapes, pageId) && OnlyListed(l.walked, pageId) && UnitTurns(shapes) && s in l.walked.order
    ensures var m := TranslationOf(shapes, l, s, dx, dy); MoveCarries(m.rules, m.final, m.s, m.p)
  {
    ContainerIsRotation(shapes, pageId, l.walked, s);
    TranslationCarries(FrameAt(l.walked, s.parentId), TurnOf(l.walked, s.parentId), s, dx, dy);
  }

  lemma TranslationIsFair(shapes: seq<Shape>, pageId: Id, l: Layout, s: Shape, dx: real, dy: real)
    requires IsTree(EnterShape, l.walked, shapes, pageId) && OnlyListed(l.walked, pageId) && UnitTurns(shapes) && s in l.walked.order
    ensures Fair(TranslationOf(shapes, l, s, dx, dy)) && pageId !in Inward(l.walked.order, s.id)
  {
    TranslationMovesFrame(shapes, pageId, l, s, dx, dy);
    PageRulesAreRigid(Displacement(l.walked, s, dx, dy));
    InwardIsClosed(EnterShape, shapes, pageId, l.walked, s);
  }

  lemma AlikeIsCarried(m: Relocation, w': Walked, d: Point)
    requires Alike(m, m.final, w') && m.inside == Inward(m.final.order, m.s.id) && m.rules == PageRules(d)
    ensures FramesCarried(m.final, w', MovingOne(m.final.order, m.s.id), [STILL, d])
  {
    forall k | k in m.final.frame
      ensures CarriedFrame(m.final.frame[k], 0.0, 0.0) == m.final.frame[k]
    {
      CarriedNowhere(m.final.frame[k]);
    }
  }

  lemma TranslationWalksAlike(shapes: seq<Shape>, pageId: Id, l: Layout, s: Shape, dx: real, dy: real)
    requires UniqueIds(shapes, pageId) && UnitTurns(shapes) && l == ComputeLayout(shapes, pageId) && s in l.walked.order
    ensures var m := TranslationOf(shapes, l, s, dx, dy); Alike(m, m.final, WalkPage(EnterShape, Relocated(m), pageId))
  {
    WalkedPageIsTree(EnterShape, shapes, pageId);
    WalkedPageIsComplete(EnterShape, shapes, pageId);
    TranslationIsFair(shapes, pageId, l, s, dx, dy);
    PageWalksAlike(TranslationOf(shapes, l, s, dx, dy), pageId);
  }

  lemma TranslationCarriesFrames(shapes: seq<Shape>, pageId: Id, s: Shape, dx: real, dy: real)
    requires UniqueIds(shapes, pageId) && UnitTurns(shapes) && s in ComputeLayout(shapes, pageId).walked.order
    ensures var l := ComputeLayout(shapes, pageId);
            var shapes' := Written(shapes, TranslateShape(s, dx, dy, l));
            && SameRecords(shapes, shapes')
            && FramesCarried(l.walked, ComputeLayout(shapes', pageId).walked, MovingOne(l.walked.order, s.id), [STILL, Displacement(l.walked, s, dx, dy)])
  {
    var l := ComputeLayout(shapes, pageId);
    var m := TranslationOf(shapes, l, s, dx, dy);
    TranslationWalksAlike(shapes, pageId, l, s, dx, dy);
    AlikeIsCarried(m, WalkPage(EnterShape, Relocated(m), pageId), Displacement(l.walked, s, dx, dy));
  }

  /**
   * Writing back a translated shape, a group included and at any depth under rotated containers, carries the frames
   * of the shape and of everything under it by exactly its displacement, and no other frame. A box under it moves by as
   * much and any other box stays; an arrow or group does the one or the other if everything it is made from does.
   */
  lemma TranslationIsExact(shapes: seq<Shape>, pageId: Id, s: Shape, dx: real, dy: real)
    requires UniqueIds(shapes, pageId) && UnitTurns(shapes) && s in ComputeLayout(shapes, pageId).walked.order
    ensures var l := ComputeLayout(shapes, pageId); var d := Displacement(l.walked, s, dx, dy);
            MovedBy(l, ComputeLayout(Written(shapes, TranslateShape(s, dx, dy, l)), pageId), s.id, d.x, d.y)
  {
    var l := ComputeLayout(shapes, pageId);
    TranslationCarriesFrames(shapes, pageId, s, dx, dy);
    LayoutFollows(shapes, Written(shapes, TranslateShape(s, dx, dy, l)), pageId, MovingOne(l.walked.order, s.id), [STILL, Displacement(l.walked, s, dx, dy)]);
  }
}
