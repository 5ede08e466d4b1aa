/** Pages on which nothing is rotated, where a shape's box can be read off its record and its containers'. */
module PlainPages {
  import opened Wrappers
  import opened Geometry
  import opened Transforms
  import opened LayoutTree
  import opened LayoutBounds
  import opened Containment
  import opened Placement
  import opened Certification
  import opened Spacing

  const PAGE: Id := "page"

  ghost predicate Plain(shapes: seq<Shape>) {
    UniqueIds(shapes, PAGE) && forall s :: s in shapes ==> s.turn == NO_TURN
  }

  /** The linear part of the identity. */
  const UPRIGHT := Linear(1.0, 0.0, 0.0, 1.0)

  function Upright(x: real, y: real): Frame {
    Frame(Matrix(UPRIGHT, Point(x, y)), NO_TURN)
  }

  lemma UprightTwice()
    ensures ComposeLinear(UPRIGHT, UPRIGHT) == UPRIGHT
  {
  }

  lemma NoTurnTwice(t: Turn, u: Turn)
    requires t == u == NO_TURN
    ensures Then(t, u) == NO_TURN
  {
  }

  lemma LocalUpright(x: real, y: real, t: Turn)
    requires t == NO_TURN
    ensures Local(x, y, t) == Matrix(UPRIGHT, Point(x, y))
  {
  }

  lemma ApplyUpright(m: Matrix, p: Point, q: Point)
    requires m.linear == UPRIGHT && q == Nudged(m.origin, p.x, p.y)
    ensures Apply(m, p) == q
  {
  }

  lemma ComposeUpright(p: Matrix, q: Matrix, o: Point)
    requires p.linear == UPRIGHT && q.linear == UPRIGHT && o == Nudged(p.origin, q.origin.x, q.origin.y)
    ensures Compose(p, q) == Matrix(UPRIGHT, o)
  {
    UprightTwice();
    ApplyUpright(p, q.origin, o);
  }

  lemma EnterParts(f: Frame, s: Shape, inner: Matrix, m: Matrix, t: Turn)
    requires Local(s.x, s.y, s.turn) == inner && Compose(f.matrix, inner) == m && Then(f.turn, s.turn) == t
    ensures EnterShape(f, s) == Frame(m, t)
  {
  }

  lemma EnterUpright(f: Frame, s: Shape, inner: Matrix, m: Matrix)
    requires f.matrix.linear == UPRIGHT && f.turn == s.turn == NO_TURN
    requires inner == Matrix(UPRIGHT, Point(s.x, s.y)) && m == Matrix(UPRIGHT, Nudged(f.matrix.origin, s.x, s.y))
    ensures EnterShape(f, s) == Frame(m, NO_TURN)
  {
    LocalUpright(s.x, s.y, s.turn);
    ComposeUpright(f.matrix, inner, m.origin);
    NoTurnTwice(f.turn, s.turn);
    EnterParts(f, s, inner, m, NO_TURN);
  }

  lemma EnterPage(s: Shape)
    requires s.turn == NO_TURN
    ensures EnterShape(PAGE_FRAME, s) == Upright(s.x, s.y)
  {
    EnterUpright(PAGE_FRAME, s, Upright(s.x, s.y).matrix, Upright(s.x, s.y).matrix);
  }

  lemma BoxOfCorners(x: real, y: real, w: real, h: real)
    requires w >= 0.0 && h >= 0.0
    ensures BoxOf(Point(x, y), Point(x + w, y), Point(x, y + h), Point(x + w, y + h)) == Rect(x, y, w, h)
  {
  }

  lemma CornersMeasured(m: Matrix, r: Rect, p: Point, q: Point, u: Point, v: Point)
    requires Apply(m, Point(r.x, r.y)) == p && Apply(m, Point(Right(r), r.y)) == q
    requires Apply(m, Point(r.x, Bottom(r))) == u && Apply(m, Point(Right(r), Bottom(r))) == v
    ensures Aabb(m, r) == BoxOf(p, q, u, v)
  {
  }

  lemma CornersUpright(m: Matrix, r: Rect, p: Point, q: Point, u: Point, v: Point)
    requires m.linear == UPRIGHT
    requires p == Nudged(m.origin, r.x, r.y) && q == Nudged(m.origin, Right(r), r.y)
    requires u == Nudged(m.origin, r.x, Bottom(r)) && v == Nudged(m.origin, Right(r), Bottom(r))
    ensures Aabb(m, r) == BoxOf(p, q, u, v)
  {
    ApplyUpright(m, Point(r.x, r.y), p);
    ApplyUpright(m, Point(Right(r), r.y), q);
    ApplyUpright(m, Point(r.x, Bottom(r)), u);
    ApplyUpright(m, Point(Right(r), Bottom(r)), v);
    CornersMeasured(m, r, p, q, u, v);
  }

  lemma MeasureUpright(x: real, y: real, s: Shape, w: real, h: real)
    requires s.box == Rect(0.0, 0.0, w, h) && w >= 0.0 && h >= 0.0
    ensures MeasureBox(Upright(x, y), s.box) == Rect(x, y, w, h)
  {
    CornersUpright(Upright(x, y).matrix, s.box, Point(x, y), Point(x + w, y), Point(x, y + h), Point(x + w, y + h));
    BoxOfCorners(x, y, w, h);
  }

  lemma PlainIsUnit(shapes: seq<Shape>)
    requires Plain(shapes)
    ensures UnitTurns(shapes)
  {
  }

  /** Listed at this depth, upright at this point of the page. */
  ghost predicate Stands(shapes: seq<Shape>, s: Shape, x: real, y: real, depth: nat) {
    var w := ComputeLayout(shapes, PAGE).walked;
    s in w.order && s.id in w.depth && w.depth[s.id] == depth && FrameAt(w, s.id) == Upright(x, y)
  }

  /** A record directly on the page is listed there. */
  lemma PageChild(enter: Entering, shapes: seq<Shape>, s: Shape)
    requires Plain(shapes) && s in shapes && s.parentId == PAGE
    ensures var w := WalkPage(enter, shapes, PAGE);
            s in w.order && s.id in w.depth && w.depth[s.id] == 0 && FrameAt(w, s.id) == enter(PAGE_FRAME, s)
  {
    var w := WalkPage(enter, shapes, PAGE);
    WalkedPageIsTree(enter, shapes, PAGE);
    WalkedPageIsComplete(enter, shapes, PAGE);
    assert s.id in w.frame;
    var x := ListedShape(w.order, s.id);
    assert Hangs(enter, x, w, PAGE);
  }

  /** And a record in a listed shape is listed in that. */
  lemma ShapeChild(enter: Entering, shapes: seq<Shape>, s: Shape, p: Shape, f: Frame)
    requires Plain(shapes) && s in shapes && s.parentId == p.id
    requires var w := WalkPage(enter, shapes, PAGE); p in w.order && p.id in w.depth && w.depth[p.id] < DEPTH_CAP && FrameAt(w, p.id) == f
    ensures var w := WalkPage(enter, shapes, PAGE);
            && s in w.order && s.id in w.depth && w.depth[s.id] == w.depth[p.id] + 1
            && FrameAt(w, s.id) == enter(f, s)
  {
    var w := WalkPage(enter, shapes, PAGE);
    WalkedPageIsTree(enter, shapes, PAGE);
    WalkedPageIsComplete(enter, shapes, PAGE);
    assert Hangs(enter, p, w, PAGE);
    assert s.id in w.frame;
    var x := ListedShape(w.order, s.id);
    assert Hangs(enter, x, w, PAGE);
  }

  lemma StandsWhere(shapes: seq<Shape>, s: Shape, f: Frame, x: real, y: real, depth: nat)
    requires f == Upright(x, y)
    requires var w := WalkPage(EnterShape, shapes, PAGE);
             s in w.order && s.id in w.depth && w.depth[s.id] == depth && FrameAt(w, s.id) == f
    ensures Stands(shapes, s, x, y, depth)
  {
  }

  lemma StandsOnPage(shapes: seq<Shape>, s: Shape)
    requires Plain(shapes) && s in shapes && s.parentId == PAGE
    ensures Stands(shapes, s, s.x, s.y, 0)
  {
    PageChild(EnterShape, shapes, s);
    EnterPage(s);
    StandsWhere(shapes, s, EnterShape(PAGE_FRAME, s), s.x, s.y, 0);
  }

  lemma EnterAt(x: real, y: real, s: Shape, f: Frame, g: Frame)
    requires s.turn == NO_TURN && f == Upright(x, y) && g == Upright(x + s.x, y + s.y)
    ensures EnterShape(f, s) == g
  {
    EnterUpright(f, s, Upright(s.x, s.y).matrix, g.matrix);
  }

  lemma ListedIn(enter: Entering, shapes: seq<Shape>, s: Shape, p: Shape, f: Frame, g: Frame, depth: nat)
    requires Plain(shapes) && s in shapes && s.parentId == p.id && depth < DEPTH_CAP && enter(f, s) == g
    requires var w := WalkPage(enter, shapes, PAGE); p in w.order && p.id in w.depth && w.depth[p.id] == depth && FrameAt(w, p.id) == f
    ensures var w := WalkPage(enter, shapes, PAGE);
            s in w.order && s.id in w.depth && w.depth[s.id] == depth + 1 && FrameAt(w, s.id) == g
  {
    ShapeChild(enter, shapes, s, p, f);
  }

  lemma StandsIn(shapes: seq<Shape>, s: Shape, p: Shape, x: real, y: real, depth: nat)
    requires Plain(shapes) && s in shapes && s.parentId == p.id && Stands(shapes, p, x, y, depth) && depth < DEPTH_CAP
    ensures Stands(shapes, s, x + s.x, y + s.y, depth + 1)
  {
    var f, g := Upright(x, y), Upright(x + s.x, y + s.y);
    EnterAt(x, y, s, f, g);
    ListedIn(EnterShape, shapes, s, p, f, g, depth);
  }

  lemma BoxOfStanding(shapes: seq<Shape>, s: Shape, x: real, y: real, depth: nat, w: real, h: real)
    requires Plain(shapes) && Stands(shapes, s, x, y, depth) && s.kind == Box && s.box == Rect(0.0, 0.0, w, h) && w >= 0.0 && h >= 0.0
    ensures var l := ComputeLayout(shapes, PAGE); s.id in l.bounds && l.bounds[s.id] == Rect(x, y, w, h)
  {
    GroupsAreUnions(EnterShape, PAGE_BOXING, shapes, PAGE);
    MeasureUpright(x, y, s, w, h);
  }

  predicate Boxed(s: Shape) {
    s.kind == Box && s.box.x == 0.0 && s.box.y == 0.0 && s.box.w >= 0.0 && s.box.h >= 0.0
  }

  ghost predicate StandsAt(l: Layout, s: Shape, r: Rect) {
    s in l.walked.order && s.id in l.bounds && l.bounds[s.id] == r
  }

  lemma AloneOnPage(shapes: seq<Shape>, s: Shape, r: Rect)
    requires Plain(shapes) && s in shapes && Boxed(s) && s.parentId == PAGE && r == Rect(s.x, s.y, s.box.w, s.box.h)
    ensures StandsAt(ComputeLayout(shapes, PAGE), s, r)
  {
    StandsOnPage(shapes, s);
    BoxOfStanding(shapes, s, s.x, s.y, 0, s.box.w, s.box.h);
  }

  lemma InAnother(shapes: seq<Shape>, s: Shape, outer: Shape, r: Rect)
    requires Plain(shapes) && s in shapes && outer in shapes && Boxed(s) && s.parentId == outer.id && outer.parentId == PAGE
    requires r == Rect(outer.x + s.x, outer.y + s.y, s.box.w, s.box.h)
    ensures StandsAt(ComputeLayout(shapes, PAGE), s, r)
  {
    StandsOnPage(shapes, outer);
    StandsIn(shapes, s, outer, outer.x, outer.y, 0);
    BoxOfStanding(shapes, s, outer.x + s.x, outer.y + s.y, 1, s.box.w, s.box.h);
  }

  /** Whatever is listed is one of the records. */
  lemma ListedIsRecord(shapes: seq<Shape>)
    ensures forall s :: s in ComputeLayout(shapes, PAGE).walked.order ==> s in shapes
  {
    var w := WalkPage(EnterShape, shapes, PAGE);
    WalkedPageIsTree(EnterShape, shapes, PAGE);
    forall s | s in w.order
      ensures s in shapes
    {
      assert Hangs(EnterShape, s, w, PAGE);
    }
  }

  /** Which listed shapes are inside which. */
  ghost predicate InsideOf(shapes: seq<Shape>, s: Shape, o: Shape) {
    s.id in Inward(ComputeLayout(shapes, PAGE).walked.order, o.id)
  }

  lemma InsideMeansUnder(shapes: seq<Shape>, o: Shape)
    requires o in ComputeLayout(shapes, PAGE).walked.order
    ensures var order := ComputeLayout(shapes, PAGE).walked.order;
            && PAGE !in Inward(order, o.id)
            && (forall s :: s in order ==> (s.id in Inward(order, o.id) <==> s.id == o.id || s.parentId in Inward(order, o.id)))
  {
    WalkedPageIsTree(EnterShape, shapes, PAGE);
    InwardIsClosed(EnterShape, shapes, PAGE, ComputeLayout(shapes, PAGE).walked, o);
  }

  /** Kin are what is inside a shape and what the shape is inside of. */
  lemma KinIsNesting(shapes: seq<Shape>, s: Shape, o: Shape)
    requires UniqueIds(shapes, PAGE) && s in ComputeLayout(shapes, PAGE).walked.order && o in ComputeLayout(shapes, PAGE).walked.order
    ensures o.id in Kin(ComputeLayout(shapes, PAGE), PAGE, s.id) <==> InsideOf(shapes, o, s) || InsideOf(shapes, s, o)
    ensures o.id != s.id ==> (o.id in Ancestors(ComputeLayout(shapes, PAGE).walked.order, PAGE, s.id, DEPTH_CAP) <==> InsideOf(shapes, s, o))
    ensures s.id !in Ancestors(ComputeLayout(shapes, PAGE).walked.order, PAGE, s.id, DEPTH_CAP)
  {
    var w := ComputeLayout(shapes, PAGE).walked;
    WalkedPageIsTree(EnterShape, shapes, PAGE);
    IsListed(w.order, s);
    IsListed(w.order, o);
    ContainmentAgrees(EnterShape, shapes, PAGE, o.id, s.id);
    ContainmentAgrees(EnterShape, shapes, PAGE, s.id, s.id);
    assert Hangs(EnterShape, s, w, PAGE);
    if s.id in Descend(w.order, s.id, 0) {
      var x := DescendIsSound(EnterShape, shapes, PAGE, w, s.id, 0, s.id);
      assert false;
    }
  }

  lemma {:induction false} BlockingIsNoLonger(order: seq<Shape>, b: map<Id, Rect>, skip: set<Id>)
    ensures |Blocking(order, b, skip)| <= |order|
    decreases |order|
  {
    if order != [] {
      BlockingIsNoLonger(order[..|order| - 1], b, skip);
    }
  }

  lemma {:induction false} NoRepeats(order: seq<Shape>, shapes: seq<Shape>)
    requires Listed(order) && forall s :: s in order ==> s in shapes
    ensures |order| <= |shapes|
    decreases |order|
  {
    if order != [] {
      var last := order[|order| - 1];
      assert last in order;
      var k :| 0 <= k < |shapes| && shapes[k] == last;
      var rest := shapes[..k] + shapes[k + 1..];
      forall s | s in order[..|order| - 1]
        ensures s in rest
      {
        var i :| 0 <= i < |order| - 1 && order[i] == s;
        assert order[i].id != last.id && order[i] in order;
        assert s in shapes && s != last;
        var j :| 0 <= j < |shapes| && shapes[j] == s;
        assert if j < k then rest[j] == s else rest[j - 1] == s;
      }
      NoRepeats(order[..|order| - 1], rest);
    }
  }

  /** A page has at most as many blockers as records. */
  lemma FewBlockers(shapes: seq<Shape>, moving: seq<Id>)
    ensures |Blockers(ComputeLayout(shapes, PAGE), PAGE, moving)| <= |shapes|
  {
    var l := ComputeLayout(shapes, PAGE);
    WalkedPageIsTree(EnterShape, shapes, PAGE);
    ListedIsRecord(shapes);
    NoRepeats(l.walked.order, shapes);
    BlockingIsNoLonger(l.walked.order, l.bounds, KinOf(l, PAGE, moving));
  }

  function BoxShape(id: Id, parentId: Id, x: real, y: real, w: real, h: real): Shape {
    Shape(id, Box, x, y, NO_TURN, parentId, Rect(0.0, 0.0, w, h), false)
  }

  function GroupShape(id: Id): Shape {
    Shape(id, Group, 0.0, 0.0, NO_TURN, PAGE, Rect(0.0, 0.0, 0.0, 0.0), false)
  }

  /** An arrow in a group, bound at both ends. */
  function BoundArrow(id: Id, parentId: Id, fromId: Id, toId: Id): Shape {
    var line := Line(Point(0.0, 0.0), Point(1.0, 1.0), 0.0, [Tie(Tail, fromId, None), Tie(Head, toId, None)]);
    Shape(id, Arrow(line), 0.0, 0.0, NO_TURN, parentId, Rect(0.0, 0.0, 0.0, 0.0), false)
  }

  lemma GroupIsAround(shapes: seq<Shape>, s: Shape, g: Shape)
    requires var order := ComputeLayout(shapes, PAGE).walked.order; s in order && g in order
    requires s.parentId == g.id && g.kind == Group
    ensures g.id in Around(ComputeLayout(shapes, PAGE).walked.order, s.id, DEPTH_CAP)
  {
    var order := ComputeLayout(shapes, PAGE).walked.order;
    WalkedPageIsTree(EnterShape, shapes, PAGE);
    GroupIsDirectlyAround(order, s, g, DEPTH_CAP);
  }

  lemma GroupIsDirectlyAround(order: seq<Shape>, s: Shape, g: Shape, steps: nat)
    requires Listed(order) && s in order && g in order && s.parentId == g.id && g.kind == Group && steps > 0
    ensures g.id in Around(order, s.id, steps)
  {
    FoundIsUnique(order, s);
    FoundIsUnique(order, g);
  }

  /** Where nothing is in an arrow, every shape is steered. */
  lemma NotInAnArrow(shapes: seq<Shape>, s: Shape)
    requires forall a :: a in shapes && a.kind.Arrow? ==> a.id != s.parentId
    ensures Steered(ComputeLayout(shapes, PAGE).walked, s)
  {
    ListedIsRecord(shapes);
  }

  /** A listed arrow bound to a listed box is bound to it indeed, and so ties what holds the arrow to the box. */
  lemma BoundIsTied(shapes: seq<Shape>, a: Shape, s: Shape, fromId: Id, parentId: Id, g: Shape)
    requires var order := ComputeLayout(shapes, PAGE).walked.order; a in order && s in order && g in order
    requires a == BoundArrow(a.id, parentId, fromId, s.id) && s.kind == Box && g.kind == Group && parentId == g.id
    ensures Tied(ComputeLayout(shapes, PAGE).walked.order, s.id, g.id)
  {
    var order := ComputeLayout(shapes, PAGE).walked.order;
    var i :| 0 <= i < |order| && order[i] == a;
    assert s.id in Known(order, i);
    var ties := a.kind.line.ties;
    assert TieAt(Known(order, i), ties, Head) == Some(ties[1]);
    assert EndsAt(order, i, s.id);
    GroupIsAround(shapes, a, g);
  }
}
