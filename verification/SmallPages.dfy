/**
 * Pages small enough to read off, with a handful of shapes. They show that the conditions under which a placement or
 * an arrangement is certified can fail, each on a page that meets everything else the theorems ask for.
 */
module SmallPages {
  import opened Wrappers
  import opened Geometry
  import opened Sliding
  import opened Arrange
  import opened LayoutTree
  import opened LayoutBounds
  import opened Containment
  import opened Placement
  import opened Certification
  import opened Spacing
  import opened LayoutActions
  import opened BatchMoves
  import opened Arrangements
  import opened PlainPages

  /* ------------------------------------------- placing below what travels along */

  const FRAME := BoxShape("frame", PAGE, 0.0, 0.0, 100.0, 100.0)
  const CHILD := BoxShape("child", "frame", 10.0, 10.0, 20.0, 20.0)

  lemma NoArrowsAcross(shapes: seq<Shape>, id: Id)
    requires forall s :: s in shapes ==> !s.kind.Arrow?
    ensures NoneAcross(ComputeLayout(shapes, PAGE).walked.order, id)
  {
    ListedIsRecord(shapes);
  }

  /** A box in a box on the page, and nothing bound by arrows. */
  ghost predicate BoxInBox(shapes: seq<Shape>, inner: Shape, outer: Shape, ri: Rect, ro: Rect) {
    && Plain(shapes) && |shapes| <= SLIDE_CAP && (forall s :: s in shapes ==> !s.kind.Arrow?)
    && inner in shapes && outer in shapes && Boxed(inner) && Boxed(outer) && inner.parentId == outer.id && outer.parentId == PAGE
    && ro == Rect(outer.x, outer.y, outer.box.w, outer.box.h) && ri == Rect(ro.x + inner.x, ro.y + inner.y, inner.box.w, inner.box.h)
  }

  lemma BoxInBoxStands(shapes: seq<Shape>, inner: Shape, outer: Shape, ri: Rect, ro: Rect)
    requires BoxInBox(shapes, inner, outer, ri, ro)
    ensures var l := ComputeLayout(shapes, PAGE); StandsAt(l, outer, ro) && StandsAt(l, inner, ri) && InsideOf(shapes, inner, outer)
  {
    AloneOnPage(shapes, outer, ro);
    InAnother(shapes, inner, outer, ri);
    InsideMeansUnder(shapes, outer);
  }

  /** No arrow is bound across, everything a placement asks for holds, and the spacing is not kept, as could be told. */
  ghost predicate PlainlyTooNear(shapes: seq<Shape>, s: Shape, t: Shape, gap: real) {
    var l := ComputeLayout(shapes, PAGE);
    && Placeable(shapes, PAGE, s, t, gap) && NoneAcross(l.walked.order, s.id)
    && s.id in l.bounds && t.id in l.bounds && !SpacingCanHold(l, s.id, t.id, gap)
    && !KeepsSpacing(shapes, PAGE, Under, s, t, gap, Start)
  }

  lemma IsPlaceable(shapes: seq<Shape>, s: Shape, t: Shape, gap: real)
    requires Plain(shapes) && |shapes| <= SLIDE_CAP && (forall x :: x in shapes ==> !x.kind.Arrow?) && gap >= SPACING_TOLERANCE
    requires var order := ComputeLayout(shapes, PAGE).walked.order; s in order && t in order && s.kind == Box
    ensures Placeable(shapes, PAGE, s, t, gap) && NoneAcross(ComputeLayout(shapes, PAGE).walked.order, s.id)
  {
    PlainIsUnit(shapes);
    PlainBoxTravels(shapes, s);
    FewBlockers(shapes, [s.id]);
    NotInAnArrow(shapes, s);
    NoArrowsAcross(shapes, s.id);
  }

  lemma TakesItsChildAlong(shapes: seq<Shape>, inner: Shape, outer: Shape, ri: Rect, ro: Rect, gap: real)
    requires BoxInBox(shapes, inner, outer, ri, ro) && Inside(ri, ro) && gap > SPACING_TOLERANCE
    ensures PlainlyTooNear(shapes, outer, inner, gap)
  {
    BoxInBoxStands(shapes, inner, outer, ri, ro);
    GapToEnclosed(ro, ri);
    IsPlaceable(shapes, outer, inner, gap);
    PlainSpacing(shapes, PAGE, Under, outer, inner, gap, Start);
  }

  lemma GapToEnclosed(a: Rect, b: Rect)
    requires Proper(b) && Inside(b, a)
    ensures GapBetween(a, b) == 0.0
  {
  }

  /** A frame placed below its own child takes the child along, so the two stay as close as they were. */
  lemma PlacedBelowItsOwnChild()
    ensures PlainlyTooNear([FRAME, CHILD], FRAME, CHILD, LAYOUT_GAP)
  {
    TakesItsChildAlong([FRAME, CHILD], CHILD, FRAME, Rect(10.0, 10.0, 20.0, 20.0), Rect(0.0, 0.0, 100.0, 100.0), LAYOUT_GAP);
  }

  /* ------------------------------------------- placing below a group around the shape */

  const GROUP := GroupShape("group")
  const LEFT := BoxShape("left", "group", 0.0, 0.0, 20.0, 20.0)
  const RIGHT := BoxShape("right", "group", 100.0, 0.0, 20.0, 20.0)

  lemma GroupIsNoPlace(shapes: seq<Shape>, s: Shape, g: Shape, gap: real)
    requires Plain(shapes) && |shapes| <= SLIDE_CAP && (forall x :: x in shapes ==> !x.kind.Arrow?) && gap > SPACING_TOLERANCE
    requires s in shapes && g in shapes && s.kind == Box && g.kind == Group && s.parentId == g.id && g.parentId == PAGE
    ensures PlainlyTooNear(shapes, s, g, gap)
  {
    StandsOnPage(shapes, g);
    StandsIn(shapes, s, g, g.x, g.y, 0);
    NotUnder(shapes, g, s);
    GroupIsAround(shapes, s, g);
    IsPlaceable(shapes, s, g, gap);
    PlainSpacing(shapes, PAGE, Under, s, g, gap, Start);
  }

  /** A member placed below its own group stays in it: the group closes on it again. */
  lemma PlacedBelowItsOwnGroup()
    ensures PlainlyTooNear([GROUP, LEFT, RIGHT], LEFT, GROUP, LAYOUT_GAP)
  {
    GroupIsNoPlace([GROUP, LEFT, RIGHT], LEFT, GROUP, LAYOUT_GAP);
  }

  /* ------------------------------------- placing below a group that an arrow ties to the shape */

  const PANEL := BoxShape("panel", "group", 0.0, 0.0, 100.0, 100.0)
  const INNER := BoxShape("inner", "panel", 10.0, 10.0, 20.0, 20.0)
  const OTHER := BoxShape("other", "group", 200.0, 0.0, 20.0, 20.0)
  const LINK := BoundArrow("link", "group", "other", "inner")

  /** A box in a box in a group, and in the group an arrow bound to the innermost. */
  ghost predicate TiedPlace(shapes: seq<Shape>, s: Shape, p: Shape, g: Shape, link: Shape, fromId: Id) {
    var l := ComputeLayout(shapes, PAGE);
    && Plain(shapes) && s in l.walked.order && p in l.walked.order && g in l.walked.order && link in l.walked.order
    && s.kind == p.kind == Box && g.kind == Group && link == BoundArrow(link.id, g.id, fromId, s.id)
    && s.parentId == p.id && g.parentId == PAGE && g.id != s.id && link.id != s.id
    && s.id in l.bounds && l.bounds[s.id].w >= 2.0 && l.bounds[s.id].h >= 2.0 && |Blockers(l, PAGE, [s.id])| <= SLIDE_CAP && Steered(l.walked, s)
  }

  /** Everything a placement asks for, and what would do where no arrow is bound across; and yet the spacing is not kept. */
  ghost predicate PlacedTooNear(shapes: seq<Shape>, s: Shape, t: Shape, gap: real) {
    var l := ComputeLayout(shapes, PAGE);
    && Placeable(shapes, PAGE, s, t, gap) && !NoneAcross(l.walked.order, s.id)
    && s.id in l.bounds && t.id in l.bounds && SpacingCanHold(l, s.id, t.id, gap)
    && !KeepsSpacing(shapes, PAGE, Under, s, t, gap, Start)
  }

  lemma NoSlack(r: Rect)
    requires r.w >= 2.0 && r.h >= 2.0
    ensures Slack(r) == 0.0
  {
  }

  lemma TiedPlaceCouldHold(shapes: seq<Shape>, s: Shape, p: Shape, g: Shape, link: Shape, fromId: Id, gap: real)
    requires TiedPlace(shapes, s, p, g, link, fromId) && g.id in ComputeLayout(shapes, PAGE).bounds
    ensures SpacingCanHold(ComputeLayout(shapes, PAGE), s.id, g.id, gap)
  {
    WalkedPageIsTree(EnterShape, shapes, PAGE);
    NoGroupAround(ComputeLayout(shapes, PAGE).walked.order, s, p);
    NotUnder(shapes, g, s);
  }

  lemma SelfIsInward(order: seq<Shape>, id: Id)
    ensures id in Inward(order, id)
  {
  }

  lemma PlainBoxTravels(shapes: seq<Shape>, s: Shape)
    requires s in ComputeLayout(shapes, PAGE).walked.order && s.kind == Box
    ensures Travels(ComputeLayout(shapes, PAGE), s.id)
  {
    WalkedPageIsTree(EnterShape, shapes, PAGE);
    BoxTravels(ComputeLayout(shapes, PAGE), s);
  }

  lemma TiedPlaceIsPlaceable(shapes: seq<Shape>, s: Shape, p: Shape, g: Shape, link: Shape, fromId: Id, gap: real)
    requires TiedPlace(shapes, s, p, g, link, fromId) && gap > SPACING_TOLERANCE
    ensures Placeable(shapes, PAGE, s, g, gap)
  {
    PlainIsUnit(shapes);
    PlainBoxTravels(shapes, s);
  }

  lemma TiedPlaceFails(shapes: seq<Shape>, s: Shape, p: Shape, g: Shape, link: Shape, fromId: Id, gap: real)
    requires TiedPlace(shapes, s, p, g, link, fromId) && gap > SPACING_TOLERANCE
    ensures Placeable(shapes, PAGE, s, g, gap) && g.id in ComputeLayout(shapes, PAGE).bounds && !KeepsSpacing(shapes, PAGE, Under, s, g, gap, Start)
  {
    TiedPlaceIsPlaceable(shapes, s, p, g, link, fromId, gap);
    BoundIsTied(shapes, link, s, fromId, g.id, g);
    NoSlack(ComputeLayout(shapes, PAGE).bounds[s.id]);
    SelfIsInward(ComputeLayout(shapes, PAGE).walked.order, s.id);
    TiedTargetFollows(shapes, PAGE, Under, s, g, gap, Start, s);
  }

  lemma TiedPlaceIsTooNear(shapes: seq<Shape>, s: Shape, p: Shape, g: Shape, link: Shape, fromId: Id, gap: real)
    requires TiedPlace(shapes, s, p, g, link, fromId) && gap > SPACING_TOLERANCE
    ensures PlacedTooNear(shapes, s, g, gap)
  {
    TiedPlaceFails(shapes, s, p, g, link, fromId, gap);
    TiedPlaceCouldHold(shapes, s, p, g, link, fromId, gap);
    LinkIsAcross(shapes, link, s, fromId, g);
  }

  lemma LinkedStands(shapes: seq<Shape>, s: Shape, p: Shape, g: Shape, link: Shape, fromId: Id)
    requires Plain(shapes) && |shapes| <= SLIDE_CAP && s in shapes && p in shapes && g in shapes && link in shapes
    requires Boxed(s) && p.kind == Box && g.kind == Group && link == BoundArrow(link.id, g.id, fromId, s.id) && s.box.w >= 2.0 && s.box.h >= 2.0
    requires s.parentId == p.id && p.parentId == g.id && g.parentId == PAGE
    ensures TiedPlace(shapes, s, p, g, link, fromId)
  {
    StandsOnPage(shapes, g);
    StandsIn(shapes, p, g, g.x, g.y, 0);
    StandsIn(shapes, link, g, g.x, g.y, 0);
    StandsIn(shapes, s, p, g.x + p.x, g.y + p.y, 1);
    BoxOfStanding(shapes, s, g.x + p.x + s.x, g.y + p.y + s.y, 2, s.box.w, s.box.h);
    FewBlockers(shapes, [s.id]);
    NotInAnArrowRecord(shapes, s, p);
  }

  lemma NotInAnArrowRecord(shapes: seq<Shape>, s: Shape, p: Shape)
    requires Plain(shapes) && p in shapes && p.id == s.parentId && !p.kind.Arrow?
    ensures Steered(ComputeLayout(shapes, PAGE).walked, s)
  {
    forall a | a in shapes && a.kind.Arrow?
      ensures a.id != s.parentId
    {
    }
    NotInAnArrow(shapes, s);
  }

  /**
   * A shape in a frame in a group, placed below the group: the group is not around it, for the frame is no group, and
   * yet the group follows it, because it holds an arrow that is bound to it.
   */
  lemma PlacedBelowATiedGroup()
    ensures PlacedTooNear([GROUP, PANEL, OTHER, LINK, INNER], INNER, GROUP, LAYOUT_GAP)
  {
    var shapes := [GROUP, PANEL, OTHER, LINK, INNER];
    LinkedStands(shapes, INNER, PANEL, GROUP, LINK, "other");
    TiedPlaceIsTooNear(shapes, INNER, PANEL, GROUP, LINK, "other", LAYOUT_GAP);
  }

  lemma NoGroupAround(order: seq<Shape>, s: Shape, p: Shape)
    requires Listed(order) && s in order && p in order && s.parentId == p.id && p.kind == Box
    ensures Around(order, s.id, DEPTH_CAP) == {}
  {
    FoundIsUnique(order, s);
    FoundIsUnique(order, p);
  }

  lemma NotUnder(shapes: seq<Shape>, g: Shape, s: Shape)
    requires var order := ComputeLayout(shapes, PAGE).walked.order; g in order && s in order
    requires g.parentId == PAGE && g.id != s.id
    ensures g.id !in Inward(ComputeLayout(shapes, PAGE).walked.order, s.id)
  {
    InsideMeansUnder(shapes, s);
  }

  lemma LinkIsAcross(shapes: seq<Shape>, a: Shape, s: Shape, fromId: Id, g: Shape)
    requires var order := ComputeLayout(shapes, PAGE).walked.order; a in order && s in order && g in order
    requires a == BoundArrow(a.id, g.id, fromId, s.id) && s.kind == Box && g.parentId == PAGE && g.id != s.id && a.id != s.id
    ensures !NoneAcross(ComputeLayout(shapes, PAGE).walked.order, s.id)
  {
    var order := ComputeLayout(shapes, PAGE).walked.order;
    InsideMeansUnder(shapes, s);
    var tie := a.kind.line.ties[1];
    assert tie in a.kind.line.ties && tie.toId in BoxIds(order) && tie.toId in Inward(order, s.id);
  }

  /* --------------------------------------------------- a row that lands on its own */

  /** Every box is kin of a member, so nothing blocks. */
  lemma {:induction false} NoBoxBlocks(order: seq<Shape>, b: map<Id, Rect>, skip: set<Id>)
    requires forall s :: s in order && s.kind == Box ==> s.id in skip
    ensures Blocking(order, b, skip) == []
    decreases |order|
  {
    if order != [] {
      assert order[|order| - 1] in order;
      NoBoxBlocks(order[..|order| - 1], b, skip);
    }
  }

  lemma KinOfTwo(l: Layout, x: Id, y: Id)
    ensures KinOf(l, PAGE, [x, y]) == Kin(l, PAGE, x) + Kin(l, PAGE, y)
  {
    assert [x, y][..1] == [x];
    assert [x][..0] == [];
    assert KinOf(l, PAGE, [x]) == Kin(l, PAGE, x);
  }

  /** The row of the first shape, which stays, and the second, which comes to the gap right of it. */
  function Beside(a: Shape, b: Shape, dx: real, dy: real): seq<Move> {
    [Move(a.id, 0.0, 0.0), Move(b.id, dx, dy)]
  }

  /** These moves are what the row action makes of the two shapes, and they land the second on what is around or inside the first. */
  ghost predicate RowLandsOnItsOwn(shapes: seq<Shape>, ids: seq<Id>, moves: seq<Move>, gap: real) {
    var l := ComputeLayout(shapes, PAGE);
    var items := ItemsAt(l, ids);
    && UniqueIds(shapes, PAGE) && UnitTurns(shapes) && ids != [] && Movable(l, PAGE, ids) && AllSteered(l, ids)
    && IdsOf(moves) == ids && MovesOf(items, moves)
    && RowFrom(Boxes(items, moves), items, Origin(items, None, None), Start, gap)
    && Blockers(l, PAGE, ids) == [] && Dropped(Boxes(items, moves), Boxes(items, moves), [], true, gap, 0.0)
    && !KeepOut(l, PAGE, moves)
    && !NoOverlap(ComputeLayout(ApplyMoves(shapes, l, moves), PAGE), PAGE, ids)
  }

  /** Two small squares apart, and a third shape around the first or inside it. */
  ghost predicate RowPage(shapes: seq<Shape>, a: Shape, b: Shape, o: Shape, ra: Rect, rb: Rect, ro: Rect) {
    var l := ComputeLayout(shapes, PAGE);
    && Plain(shapes) && (forall s :: s in shapes ==> s == a || s == b || s == o)
    && a in l.walked.order && b in l.walked.order && o in l.walked.order && a.kind == b.kind == o.kind == Box
    && a.id != b.id && o.id != a.id && o.id != b.id && !a.locked && !b.locked
    && a.id in l.bounds && l.bounds[a.id] == ra && b.id in l.bounds && l.bounds[b.id] == rb && o.id in l.bounds && l.bounds[o.id] == ro
    && ra.w == rb.w == ra.h == rb.h && ra.w >= 0.0 && ra.x <= rb.x && ra.y <= rb.y
    && !InsideOf(shapes, a, b) && !InsideOf(shapes, b, a) && !InsideOf(shapes, o, b) && !InsideOf(shapes, b, o)
    && (InsideOf(shapes, o, a) || InsideOf(shapes, a, o))
  }

  lemma RowIsKin(shapes: seq<Shape>, a: Shape, b: Shape, o: Shape, ra: Rect, rb: Rect, ro: Rect)
    requires RowPage(shapes, a, b, o, ra, rb, ro)
    ensures var l := ComputeLayout(shapes, PAGE);
            && o.id in Kin(l, PAGE, a.id) && o.id !in Kin(l, PAGE, b.id) && a.id in Kin(l, PAGE, a.id) && b.id in Kin(l, PAGE, b.id)
            && (forall id, x :: id in [a.id, b.id] && x in [a.id, b.id] ==> x !in Ancestors(l.walked.order, PAGE, id, DEPTH_CAP))
  {
    KinIsNesting(shapes, a, b);
    KinIsNesting(shapes, b, a);
    KinIsNesting(shapes, a, o);
    KinIsNesting(shapes, b, o);
    KinIsNesting(shapes, a, a);
    KinIsNesting(shapes, b, b);
  }

  lemma NoThirdBlocks(shapes: seq<Shape>, a: Shape, b: Shape, o: Shape)
    requires forall s :: s in shapes ==> s == a || s == b || s == o
    requires var l := ComputeLayout(shapes, PAGE); o.id in Kin(l, PAGE, a.id) && a.id in Kin(l, PAGE, a.id) && b.id in Kin(l, PAGE, b.id)
    ensures Blockers(ComputeLayout(shapes, PAGE), PAGE, [a.id, b.id]) == []
  {
    var l := ComputeLayout(shapes, PAGE);
    ListedIsRecord(shapes);
    KinOfTwo(l, a.id, b.id);
    NoBoxBlocks(l.walked.order, l.bounds, KinOf(l, PAGE, [a.id, b.id]));
  }

  lemma RowIsMovable(shapes: seq<Shape>, a: Shape, b: Shape, o: Shape, ra: Rect, rb: Rect, ro: Rect)
    requires RowPage(shapes, a, b, o, ra, rb, ro)
    ensures var l := ComputeLayout(shapes, PAGE);
            && Movable(l, PAGE, [a.id, b.id]) && AllSteered(l, [a.id, b.id]) && Blockers(l, PAGE, [a.id, b.id]) == []
            && o.id in Kin(l, PAGE, a.id) && o.id !in Kin(l, PAGE, b.id)
  {
    RowIsKin(shapes, a, b, o, ra, rb, ro);
    NoThirdBlocks(shapes, a, b, o);
    MayMoveBoth(shapes, ComputeLayout(shapes, PAGE), a, b);
  }

  lemma MayMoveBoth(shapes: seq<Shape>, l: Layout, a: Shape, b: Shape)
    requires l == ComputeLayout(shapes, PAGE) && a in l.walked.order && b in l.walked.order && !a.locked && !b.locked
    requires !a.kind.Arrow? && !b.kind.Arrow? && forall s :: s in shapes && s.kind.Arrow? ==> forall x :: x in shapes ==> s.id != x.parentId
    ensures MayMove(l, a.id) && MayMove(l, b.id) && AllSteered(l, [a.id, b.id])
  {
    WalkedPageIsTree(EnterShape, shapes, PAGE);
    ListedIsRecord(shapes);
    FoundIsUnique(l.walked.order, a);
    FoundIsUnique(l.walked.order, b);
    forall s | s in l.walked.order
      ensures Steered(l.walked, s)
    {
      NotInAnArrow(shapes, s);
    }
  }

  lemma RowIsFromCorner(items: seq<Item>, moves: seq<Move>, a: Item, b: Item, gap: real)
    requires items == [a, b] && MovesOf(items, moves) && moves[0].dx == 0.0 && moves[0].dy == 0.0
    requires a.bounds.w == b.bounds.w == a.bounds.h == b.bounds.h && a.bounds.w >= 0.0 && a.bounds.x <= b.bounds.x && a.bounds.y <= b.bounds.y
    requires b.bounds.x + moves[1].dx == Right(a.bounds) + gap && b.bounds.y + moves[1].dy == a.bounds.y
    ensures RowFrom(Boxes(items, moves), items, Origin(items, None, None), Start, gap)
    ensures Dropped(Boxes(items, moves), Boxes(items, moves), [], true, gap, 0.0)
  {
    var rects := seq(|items|, i requires 0 <= i < |items| => items[i].bounds);
    assert rects == [a.bounds, b.bounds] && rects[..1] == [a.bounds];
    assert Union(rects[..1]) == a.bounds;
    assert Union(rects) == Join(a.bounds, b.bounds);
  }

  /** The second comes to the gap right of the first, and onto the third. */
  ghost predicate Lands(ra: Rect, rb: Rect, ro: Rect, dx: real, dy: real, gap: real) {
    && !TooSmall(dx, dy) && rb.x + dx == Right(ra) + gap && rb.y + dy == ra.y
    && Covers(Shift(rb, dx, dy), ro)
  }

  /** By a square of side 2 or more. */
  predicate Covers(a: Rect, b: Rect) {
    && a.x + 2.0 <= Right(a) && a.x + 2.0 <= Right(b) && b.x + 2.0 <= Right(a) && b.x + 2.0 <= Right(b)
    && a.y + 2.0 <= Bottom(a) && a.y + 2.0 <= Bottom(b) && b.y + 2.0 <= Bottom(a) && b.y + 2.0 <= Bottom(b)
  }

  lemma CoversArea(a: Rect, b: Rect)
    requires Covers(a, b)
    ensures OverlapArea(a, b) > 1.0
  {
    BigArea(Min(Right(a), Right(b)) - Max(a.x, b.x), Min(Bottom(a), Bottom(b)) - Max(a.y, b.y));
  }

  lemma BigArea(w: real, h: real)
    requires w >= 2.0 && h >= 2.0
    ensures w * h >= 4.0
  {
    assert (w - 2.0) * (h - 2.0) >= 0.0;
  }

  lemma RowLands(shapes: seq<Shape>, a: Shape, b: Shape, o: Shape, ra: Rect, rb: Rect, ro: Rect, dx: real, dy: real, gap: real)
    requires RowPage(shapes, a, b, o, ra, rb, ro) && Lands(ra, rb, ro, dx, dy, gap) && gap >= SPACING_TOLERANCE
    ensures RowLandsOnItsOwn(shapes, [a.id, b.id], Beside(a, b, dx, dy), gap)
  {
    var l := ComputeLayout(shapes, PAGE);
    var ids, moves := [a.id, b.id], Beside(a, b, dx, dy);
    var items := ItemsAt(l, ids);
    assert items == [Item(a.id, ra), Item(b.id, rb)];
    PlainIsUnit(shapes);
    RowIsMovable(shapes, a, b, o, ra, rb, ro);
    RowIsFromCorner(items, moves, Item(a.id, ra), Item(b.id, rb), gap);
    IdsOfMoves(items, moves, l, ids);
    MovableIsIndependent(shapes, PAGE, ids, moves);
    RowIsWellPlanned(shapes, PAGE, ids, moves, gap);
    BoxesEnd(l, b, o, moves[1], moves[0], rb, ro);
    CoversArea(Shift(rb, dx, dy), ro);
    assert LandsOnKin(l, PAGE, moves[1], moves[0], b, o);
    ArrangementVerdict(shapes, PAGE, items, moves, gap, []);
  }

  /** A move to the same place leaves every box where it is. */
  lemma BoxesEnd(l: Layout, b: Shape, o: Shape, m: Move, still: Move, rb: Rect, ro: Rect)
    requires b.id in l.bounds && o.id in l.bounds && l.bounds[b.id] == rb && l.bounds[o.id] == ro
    requires m.id == b.id && !TooSmall(m.dx, m.dy) && still.dx == 0.0 && still.dy == 0.0 && b in l.walked.order
    ensures Ends(l, m, b.id) == Shift(rb, m.dx, m.dy) && Ends(l, still, o.id) == ro
  {
  }

  /** One shape in another, and a third apart from both. */
  lemma OneInAnother(shapes: seq<Shape>, inner: Shape, outer: Shape, s: Shape)
    requires var order := ComputeLayout(shapes, PAGE).walked.order; inner in order && outer in order && s in order
    requires inner.parentId == outer.id && outer.parentId == PAGE && s.parentId == PAGE
    requires inner.id != outer.id && inner.id != s.id && outer.id != s.id
    ensures InsideOf(shapes, inner, outer) && !InsideOf(shapes, outer, inner)
    ensures !InsideOf(shapes, inner, s) && !InsideOf(shapes, s, inner) && !InsideOf(shapes, outer, s) && !InsideOf(shapes, s, outer)
  {
    InsideMeansUnder(shapes, inner);
    InsideMeansUnder(shapes, outer);
    InsideMeansUnder(shapes, s);
  }

  /* the frame of the first member, and the second lands in it */

  const FIRST := BoxShape("first", "frame", 10.0, 10.0, 20.0, 20.0)
  const SECOND := BoxShape("second", PAGE, 500.0, 500.0, 20.0, 20.0)

  /** Where they stand at first. */
  const FAR := Rect(500.0, 500.0, 20.0, 20.0)
  const IN_FRAME := Rect(10.0, 10.0, 20.0, 20.0)
  const WHOLE_FRAME := Rect(0.0, 0.0, 100.0, 100.0)

  /** One box in another and a third apart from both, none of them locked. */
  ghost predicate ThreeBoxes(shapes: seq<Shape>, inner: Shape, outer: Shape, s: Shape, ri: Rect, ro: Rect, rs: Rect) {
    && BoxInBox(shapes, inner, outer, ri, ro) && s in shapes && Boxed(s) && s.parentId == PAGE && rs == Rect(s.x, s.y, s.box.w, s.box.h)
    && (forall x :: x in shapes ==> x == inner || x == outer || x == s) && inner.id != outer.id && inner.id != s.id && outer.id != s.id
    && !inner.locked && !outer.locked && !s.locked
  }

  lemma ThreeBoxesStand(shapes: seq<Shape>, inner: Shape, outer: Shape, s: Shape, ri: Rect, ro: Rect, rs: Rect)
    requires ThreeBoxes(shapes, inner, outer, s, ri, ro, rs) && rs.w == rs.h
    ensures ri.w == ri.h == rs.w && ri.x <= rs.x && ri.y <= rs.y ==> RowPage(shapes, inner, s, outer, ri, rs, ro)
    ensures ro.w == ro.h == rs.w && ro.x <= rs.x && ro.y <= rs.y ==> RowPage(shapes, outer, s, inner, ro, rs, ri)
  {
    BoxInBoxStands(shapes, inner, outer, ri, ro);
    AloneOnPage(shapes, s, rs);
    OneInAnother(shapes, inner, outer, s);
  }

  /** The inner box and the third in a row, and where the third then is, which is on the outer. */
  ghost predicate InnerMember(shapes: seq<Shape>, inner: Shape, outer: Shape, s: Shape, ri: Rect, ro: Rect, rs: Rect, dx: real, dy: real, gap: real) {
    && ThreeBoxes(shapes, inner, outer, s, ri, ro, rs) && ri.w == ri.h == rs.w == rs.h && ri.x <= rs.x && ri.y <= rs.y
    && Lands(ri, rs, ro, dx, dy, gap) && gap >= SPACING_TOLERANCE
  }

  lemma InnerMemberLands(shapes: seq<Shape>, inner: Shape, outer: Shape, s: Shape, ri: Rect, ro: Rect, rs: Rect, dx: real, dy: real, gap: real)
    requires InnerMember(shapes, inner, outer, s, ri, ro, rs, dx, dy, gap)
    ensures RowLandsOnItsOwn(shapes, [inner.id, s.id], Beside(inner, s, dx, dy), gap)
  {
    ThreeBoxesStand(shapes, inner, outer, s, ri, ro, rs);
    RowLands(shapes, inner, s, outer, ri, rs, ro, dx, dy, gap);
  }

  /** The outer box and the third in a row, and where the third then is, which is on the inner. */
  ghost predicate OuterMember(shapes: seq<Shape>, inner: Shape, outer: Shape, s: Shape, ri: Rect, ro: Rect, rs: Rect, dx: real, dy: real, gap: real) {
    && ThreeBoxes(shapes, inner, outer, s, ri, ro, rs) && ro.w == ro.h == rs.w == rs.h && ro.x <= rs.x && ro.y <= rs.y
    && Lands(ro, rs, ri, dx, dy, gap) && gap >= SPACING_TOLERANCE
  }

  lemma OuterMemberLands(shapes: seq<Shape>, inner: Shape, outer: Shape, s: Shape, ri: Rect, ro: Rect, rs: Rect, dx: real, dy: real, gap: real)
    requires OuterMember(shapes, inner, outer, s, ri, ro, rs, dx, dy, gap)
    ensures RowLandsOnItsOwn(shapes, [outer.id, s.id], Beside(outer, s, dx, dy), gap)
  {
    ThreeBoxesStand(shapes, inner, outer, s, ri, ro, rs);
    RowLands(shapes, outer, s, inner, ro, rs, ri, dx, dy, gap);
  }

  lemma FrameBoxes()
    ensures InnerMember([FRAME, FIRST, SECOND], FIRST, FRAME, SECOND, IN_FRAME, WHOLE_FRAME, FAR, -460.0, -490.0, 10.0)
  {
  }

  /** One member stays in its frame and the other lands there too: the frame was never a blocker. */
  lemma RowInAFrame()
    ensures RowLandsOnItsOwn([FRAME, FIRST, SECOND], [FIRST.id, SECOND.id], Beside(FIRST, SECOND, -460.0, -490.0), 10.0)
  {
    FrameBoxes();
    InnerMemberLands([FRAME, FIRST, SECOND], FIRST, FRAME, SECOND, IN_FRAME, WHOLE_FRAME, FAR, -460.0, -490.0, 10.0);
  }

  /* a shape in the first member that sticks out of it, and the second lands on that */

  const HOST := BoxShape("host", PAGE, 0.0, 0.0, 20.0, 20.0)
  const JUTTING := BoxShape("jutting", "host", 25.0, 0.0, 20.0, 20.0)
  const HOST_BOX := Rect(0.0, 0.0, 20.0, 20.0)
  const JUTTING_BOX := Rect(25.0, 0.0, 20.0, 20.0)

  lemma HostBoxes()
    ensures OuterMember([HOST, JUTTING, SECOND], JUTTING, HOST, SECOND, JUTTING_BOX, HOST_BOX, FAR, -470.0, -500.0, 10.0)
  {
  }

  /** What sticks out of a member is no blocker for the others. */
  lemma RowOntoWhatJutsOut()
    ensures RowLandsOnItsOwn([HOST, JUTTING, SECOND], [HOST.id, SECOND.id], Beside(HOST, SECOND, -470.0, -500.0), 10.0)
  {
    HostBoxes();
    OuterMemberLands([HOST, JUTTING, SECOND], JUTTING, HOST, SECOND, JUTTING_BOX, HOST_BOX, FAR, -470.0, -500.0, 10.0);
  }

  /* ------------------------------------------ a region that is not clear by construction */

  const LONG := BoxShape("long", "host", 0.0, 0.0, 20.0, 60.0)

  /** Hangs as far below the box around it as to be in the way of a region of this size placed under that. */
  lemma AnchorUnderHost(shapes: seq<Shape>, s: Shape, host: Shape, rs: Rect, rh: Rect, size: Size)
    requires BoxInBox(shapes, s, host, rs, rh) && (forall x :: x in shapes && x.parentId == PAGE ==> x == host) && s.parentId != PAGE
    requires HangsBelow(rh, size, LAYOUT_GAP, rs)
    ensures var l := ComputeLayout(shapes, PAGE);
            !Clear(Blockers(l, PAGE, []), Placed(Anchor(l, PAGE, None, LAYOUT_GAP), size), LAYOUT_GAP)
  {
    var l := ComputeLayout(shapes, PAGE);
    BoxInBoxStands(shapes, s, host, rs, rh);
    ListedIsRecord(shapes);
    OnlyOnThePage(l.walked.order, l.bounds, host);
    assert NestedBox(l, PAGE, [], s);
    DefaultAnchorIsClear(l, PAGE, size, LAYOUT_GAP, []);
  }

  /** What sticks out of a shape on the page reaches below the page's extent, so the default anchor is not clear of it. */
  lemma DefaultAnchorIsNotAlwaysClear()
    ensures var l := ComputeLayout([HOST, LONG], PAGE);
            !Clear(Blockers(l, PAGE, []), Placed(Anchor(l, PAGE, None, LAYOUT_GAP), Size(10.0, 10.0)), LAYOUT_GAP)
  {
    AnchorUnderHost([HOST, LONG], LONG, HOST, Rect(0.0, 0.0, 20.0, 60.0), Rect(0.0, 0.0, 20.0, 20.0), Size(10.0, 10.0));
  }

  /** One shape on the page alone makes the extent. */
  lemma OnlyOnThePage(order: seq<Shape>, b: map<Id, Rect>, s: Shape)
    requires s in order && s.kind == Box && s.parentId == PAGE && s.id in b && forall x :: x in order && x.parentId == PAGE ==> x == s
    ensures var rects := OnThePage(order, b, PAGE); rects != [] && Union(rects) == b[s.id]
  {
    OnThePageMembers(order, b, PAGE, s);
    OnlyItsBox(order, b, s);
    UnionOfOne(OnThePage(order, b, PAGE), b[s.id]);
  }

  lemma {:induction false} OnlyItsBox(order: seq<Shape>, b: map<Id, Rect>, s: Shape)
    requires s.id in b && forall x :: x in order && x.parentId == PAGE ==> x == s
    ensures forall i :: 0 <= i < |OnThePage(order, b, PAGE)| ==> OnThePage(order, b, PAGE)[i] == b[s.id]
    decreases |order|
  {
    if order != [] {
      assert order[|order| - 1] in order;
      OnlyItsBox(order[..|order| - 1], b, s);
    }
  }

  lemma {:induction false} UnionOfOne(rects: seq<Rect>, r: Rect)
    requires rects != [] && forall i :: 0 <= i < |rects| ==> rects[i] == r
    ensures Union(rects) == r
    decreases |rects|
  {
    if |rects| > 1 {
      UnionOfOne(rects[..|rects| - 1], r);
    }
  }

  /* ------------------------------------------------- a row of a shape and a group tied to it */

  const MATE := BoxShape("mate", PAGE, 0.0, 0.0, 20.0, 20.0)
  const STRAY := BoundArrow("stray", "group", "left", "mate")

  /** The second planned a gap to the right of the first. */
  function NextTo(a: Item, b: Item, gap: real): seq<Move> {
    [Move(a.id, 0.0, 0.0), Move(b.id, Right(a.bounds) + gap - b.bounds.x, a.bounds.y - b.bounds.y)]
  }

  function Neighbouring(l: Layout, a: Id, b: Id, gap: real): seq<Move> {
    NextTo(Item(a, BoundsAt(l, a)), Item(b, BoundsAt(l, b)), gap)
  }

  lemma NextToIsRow(items: seq<Item>, a: Item, b: Item, gap: real)
    requires items == [a, b]
    ensures MovesOf(items, NextTo(a, b, gap)) && IsRow(Boxes(items, NextTo(a, b, gap)), gap)
  {
    RowOfTwo(items, NextTo(a, b, gap), a.bounds, b.bounds, gap);
  }

  lemma RowOfTwo(items: seq<Item>, moves: seq<Move>, ra: Rect, rb: Rect, gap: real)
    requires |items| == |moves| == 2 && items[0].bounds == ra && items[1].bounds == rb
    requires moves[0].dx == 0.0 && moves[1].dx == Right(ra) + gap - rb.x && moves[0].id == items[0].id && moves[1].id == items[1].id
    ensures MovesOf(items, moves) && IsRow(Boxes(items, moves), gap)
  {
    var boxes := Boxes(items, moves);
    assert |boxes| == 2 && boxes[0].x == ra.x && boxes[0].w == ra.w && boxes[1].x == rb.x + moves[1].dx;
  }

  /** A box and, apart from it, a group of a box and an arrow that binds that box to the first. */
  ghost predicate TiedRow(shapes: seq<Shape>, a: Shape, g: Shape, c: Shape, link: Shape) {
    var l := ComputeLayout(shapes, PAGE);
    && Plain(shapes) && (forall s :: s in shapes ==> s == a || s == g || s == c || s == link)
    && a in l.walked.order && g in l.walked.order && c in l.walked.order && link in l.walked.order
    && a.kind == c.kind == Box && g.kind == Group && link == BoundArrow(link.id, g.id, c.id, a.id) && !a.locked && !g.locked
    && a.parentId == g.parentId == PAGE && c.parentId == g.id && a.id != g.id && a.id != c.id && g.id != c.id
    && link.id != a.id && link.id != g.id && link.id != c.id
    && a.id in l.bounds && g.id in l.bounds && l.bounds[a.id].w >= 2.0 && l.bounds[a.id].h >= 2.0
  }

  lemma TiedRowKin(shapes: seq<Shape>, a: Shape, g: Shape, c: Shape, link: Shape)
    requires TiedRow(shapes, a, g, c, link)
    ensures !InsideOf(shapes, a, g) && !InsideOf(shapes, g, a) && InsideOf(shapes, c, g) && InsideOf(shapes, link, g)
  {
    InsideMeansUnder(shapes, a);
    InsideMeansUnder(shapes, g);
  }

  lemma SelfIsKin(l: Layout, id: Id)
    ensures id in Kin(l, PAGE, id)
  {
  }

  lemma TiedRowIsClear(shapes: seq<Shape>, a: Shape, g: Shape, c: Shape, link: Shape)
    requires TiedRow(shapes, a, g, c, link)
    ensures Blockers(ComputeLayout(shapes, PAGE), PAGE, [a.id, g.id]) == []
  {
    var l := ComputeLayout(shapes, PAGE);
    TiedRowKin(shapes, a, g, c, link);
    KinIsNesting(shapes, g, c);
    TiedRowBoxes(shapes, a, g, c, link);
    TwoBoxesClear(l, a.id, g.id, c.id);
  }

  lemma TiedRowBoxes(shapes: seq<Shape>, a: Shape, g: Shape, c: Shape, link: Shape)
    requires TiedRow(shapes, a, g, c, link)
    ensures forall s :: s in ComputeLayout(shapes, PAGE).walked.order && s.kind == Box ==> s.id == a.id || s.id == c.id
  {
    ListedIsRecord(shapes);
  }

  lemma TwoBoxesClear(l: Layout, a: Id, g: Id, c: Id)
    requires c in Kin(l, PAGE, g) && forall s :: s in l.walked.order && s.kind == Box ==> s.id == a || s.id == c
    ensures Blockers(l, PAGE, [a, g]) == []
  {
    KinOfTwo(l, a, g);
    SelfIsKin(l, a);
    NoBoxBlocks(l.walked.order, l.bounds, KinOf(l, PAGE, [a, g]));
  }

  lemma TiedRowIsMovable(shapes: seq<Shape>, a: Shape, g: Shape, c: Shape, link: Shape)
    requires TiedRow(shapes, a, g, c, link)
    ensures var l := ComputeLayout(shapes, PAGE); Movable(l, PAGE, [a.id, g.id]) && AllSteered(l, [a.id, g.id])
  {
    TiedRowKin(shapes, a, g, c, link);
    KinIsNesting(shapes, a, g);
    KinIsNesting(shapes, g, a);
    MayMoveBoth(shapes, ComputeLayout(shapes, PAGE), a, g);
  }

  /** Planned like any row, and yet found touching. */
  ghost predicate RowIsFoundTouching(shapes: seq<Shape>, ids: seq<Id>, moves: seq<Move>, pairs: seq<(Id, Id)>, gap: real) {
    var l := ComputeLayout(shapes, PAGE);
    && UniqueIds(shapes, PAGE) && UnitTurns(shapes) && Movable(l, PAGE, ids) && Independent(l, moves) && PairsOf(moves, pairs)
    && WellPlanned(l, PAGE, ItemsAt(l, ids), moves, gap) && !AllRigid(l, moves)
    && !SpacedOut(ComputeLayout(ApplyMoves(shapes, l, moves), PAGE), PAGE, ids, pairs, gap)
  }

  lemma TiedRowIsPlanned(shapes: seq<Shape>, a: Shape, g: Shape, c: Shape, link: Shape, gap: real)
    requires TiedRow(shapes, a, g, c, link) && gap > SPACING_TOLERANCE
    ensures var l := ComputeLayout(shapes, PAGE); var moves := Neighbouring(l, a.id, g.id, gap);
            && UnitTurns(shapes) && Independent(l, moves) && IdsOf(moves) == [a.id, g.id]
            && WellPlanned(l, PAGE, ItemsAt(l, [a.id, g.id]), moves, gap)
  {
    var l := ComputeLayout(shapes, PAGE);
    var ids, moves := [a.id, g.id], Neighbouring(l, a.id, g.id, gap);
    PlainIsUnit(shapes);
    TiedRowIsMovable(shapes, a, g, c, link);
    TiedRowIsClear(shapes, a, g, c, link);
    var first, second := Item(a.id, BoundsAt(l, a.id)), Item(g.id, BoundsAt(l, g.id));
    assert ItemsAt(l, ids) == [first, second];
    NextToIsRow(ItemsAt(l, ids), first, second, gap);
    IdsOfMoves(ItemsAt(l, ids), moves, l, ids);
    MovableIsIndependent(shapes, PAGE, ids, moves);
    RowIsWellPlanned(shapes, PAGE, ids, moves, gap);
  }

  lemma TiedRowIsNotForeseen(shapes: seq<Shape>, a: Shape, g: Shape, c: Shape, link: Shape, gap: real, moves: seq<Move>)
    requires TiedRow(shapes, a, g, c, link) && gap > SPACING_TOLERANCE && moves == Neighbouring(ComputeLayout(shapes, PAGE), a.id, g.id, gap)
    requires UnitTurns(shapes) && Independent(ComputeLayout(shapes, PAGE), moves)
    ensures !PairsForeseen(shapes, ComputeLayout(shapes, PAGE), moves, [(a.id, g.id)], gap)
  {
    BoundIsTied(shapes, link, a, c.id, g.id, g);
    NoSlack(ComputeLayout(shapes, PAGE).bounds[a.id]);
    TiedMembersTouch(shapes, PAGE, moves, gap, [(a.id, g.id)], 0, 1, a);
  }

  lemma NextPair(moves: seq<Move>, pairs: seq<(Id, Id)>)
    requires |moves| == 2 && pairs == [(moves[0].id, moves[1].id)]
    ensures PairsOf(moves, pairs)
  {
    assert pairs[0] == (moves[0].id, moves[1].id);
  }

  lemma TiedRowTouches(shapes: seq<Shape>, a: Shape, g: Shape, c: Shape, link: Shape, gap: real)
    requires TiedRow(shapes, a, g, c, link) && gap > SPACING_TOLERANCE
    ensures RowIsFoundTouching(shapes, [a.id, g.id], Neighbouring(ComputeLayout(shapes, PAGE), a.id, g.id, gap), [(a.id, g.id)], gap)
  {
    var l := ComputeLayout(shapes, PAGE);
    var ids, moves, pairs := [a.id, g.id], Neighbouring(l, a.id, g.id, gap), [(a.id, g.id)];
    TiedRowIsPlanned(shapes, a, g, c, link, gap);
    TiedRowIsMovable(shapes, a, g, c, link);
    TiedRowIsNotForeseen(shapes, a, g, c, link, gap, moves);
    NextPair(moves, pairs);
    FoundTouching(shapes, ids, moves, pairs, gap);
  }

  lemma FoundTouching(shapes: seq<Shape>, ids: seq<Id>, moves: seq<Move>, pairs: seq<(Id, Id)>, gap: real)
    requires var l := ComputeLayout(shapes, PAGE);
             && UniqueIds(shapes, PAGE) && UnitTurns(shapes) && Movable(l, PAGE, ids) && Independent(l, moves) && PairsOf(moves, pairs)
             && WellPlanned(l, PAGE, ItemsAt(l, ids), moves, gap) && IdsOf(moves) == ids && gap >= SPACING_TOLERANCE
             && !PairsForeseen(shapes, l, moves, pairs, gap)
    ensures RowIsFoundTouching(shapes, ids, moves, pairs, gap)
  {
    ArrangementVerdict(shapes, PAGE, ItemsAt(ComputeLayout(shapes, PAGE), ids), moves, gap, pairs);
  }

  lemma TiedRowStands(shapes: seq<Shape>, a: Shape, g: Shape, c: Shape, link: Shape)
    requires Plain(shapes) && a in shapes && g in shapes && c in shapes && link in shapes && forall s :: s in shapes ==> s == a || s == g || s == c || s == link
    requires Boxed(a) && c.kind == Box && g.kind == Group && link == BoundArrow(link.id, g.id, c.id, a.id) && !a.locked && !g.locked
    requires a.parentId == g.parentId == PAGE && c.parentId == g.id && a.id != g.id && a.id != c.id && g.id != c.id
    requires link.id != a.id && link.id != g.id && link.id != c.id && a.box.w >= 2.0 && a.box.h >= 2.0
    ensures TiedRow(shapes, a, g, c, link)
  {
    AloneOnPage(shapes, a, Rect(a.x, a.y, a.box.w, a.box.h));
    StandsOnPage(shapes, g);
    StandsIn(shapes, c, g, g.x, g.y, 0);
    StandsIn(shapes, link, g, g.x, g.y, 0);
    LayoutIsSettled(shapes, PAGE);
  }

  /** A row of a shape and a group holding an arrow bound to it: planned the gap apart, and yet found touching. */
  lemma RowOfATiedGroup(gap: real)
    requires gap > SPACING_TOLERANCE
    ensures var shapes := [MATE, GROUP, LEFT, STRAY];
            RowIsFoundTouching(shapes, [MATE.id, GROUP.id], Neighbouring(ComputeLayout(shapes, PAGE), MATE.id, GROUP.id, gap), [(MATE.id, GROUP.id)], gap)
  {
    TiedRowStands([MATE, GROUP, LEFT, STRAY], MATE, GROUP, LEFT, STRAY);
    TiedRowTouches([MATE, GROUP, LEFT, STRAY], MATE, GROUP, LEFT, STRAY, gap);
  }
}
