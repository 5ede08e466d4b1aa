/**
 * What the boxes of a layout are, said of the page itself: where the corners of a shape stand once it is turned and
 * placed in each of its containers, where the ends of an arrow are, and what lies around the members of a group.
 */
module Outlines {
  import opened Wrappers
  import opened Geometry
  import opened Transforms
  import opened LayoutTree
  import opened LayoutBounds
  import opened Arrows
  import opened Placement

  /* ------------------------------------------------------------------ points on the page */

  /** A point of the shape's own frame, seen from its container. */
  function Outward(s: Shape, p: Point): Point {
    Point(s.x + s.turn.c * p.x - s.turn.s * p.y, s.y + s.turn.s * p.x + s.turn.c * p.y)
  }

  /** A point of the shape's own frame stands here on the page, which is this many containers further out. */
  ghost predicate StandsAt(shapes: seq<Shape>, pageId: Id, s: Shape, p: Point, q: Point, hops: nat)
    decreases hops
  {
    if hops == 0 then s.parentId == pageId && q == Outward(s, p)
    else s.parentId != pageId && exists c :: c in shapes && c.id == s.parentId && StandsAt(shapes, pageId, c, Outward(s, p), q, hops - 1)
  }

  lemma ScalarsCompose(a: real, c: real, x: real, y: real, u: real, v: real, t: real, s: real)
    ensures (a * t + c * s) * u + (a * (-s) + c * t) * v + (a * x + c * y) == a * (x + t * u - s * v) + c * (y + s * u + t * v)
  {
    assert (a * t + c * s) * u == a * t * u + c * s * u;
    assert (a * (-s) + c * t) * v == c * t * v - a * s * v;
    assert a * (x + t * u - s * v) == a * x + a * t * u - a * s * v;
    assert c * (y + s * u + t * v) == c * y + c * s * u + c * t * v;
  }

  lemma TurnedInside(l: Linear, t: Turn, o: Point, p: Point)
    ensures var q := Point(o.x + t.c * p.x - t.s * p.y, o.y + t.s * p.x + t.c * p.y);
            var inner := ApplyLinear(ComposeLinear(l, Rotation(t)), p);
            ApplyLinear(l, q) == Nudged(inner, ApplyLinear(l, o).x, ApplyLinear(l, o).y)
  {
    ScalarsCompose(l.a, l.c, o.x, o.y, p.x, p.y, t.c, t.s);
    ScalarsCompose(l.b, l.d, o.x, o.y, p.x, p.y, t.c, t.s);
    var x, y := o.x + t.c * p.x - t.s * p.y, o.y + t.s * p.x + t.c * p.y;
    var e := ComposeLinear(l, Rotation(t));
    ProductsOf(l, t, p);
    assert ApplyLinear(l, Point(x, y)) == Point(l.a * x + l.c * y, l.b * x + l.d * y);
    assert ApplyLinear(l, o) == Point(l.a * o.x + l.c * o.y, l.b * o.x + l.d * o.y);
    assert l.a * x + l.c * y == (l.a * t.c + l.c * t.s) * p.x + (l.a * (-t.s) + l.c * t.c) * p.y + (l.a * o.x + l.c * o.y);
    assert l.b * x + l.d * y == (l.b * t.c + l.d * t.s) * p.x + (l.b * (-t.s) + l.d * t.c) * p.y + (l.b * o.x + l.d * o.y);
  }

  lemma ProductsOf(l: Linear, t: Turn, p: Point)
    ensures ApplyLinear(ComposeLinear(l, Rotation(t)), p) ==
            Point((l.a * t.c + l.c * t.s) * p.x + (l.a * (-t.s) + l.c * t.c) * p.y,
                  (l.b * t.c + l.d * t.s) * p.x + (l.b * (-t.s) + l.d * t.c) * p.y)
  {
  }

  /** Entering a container's frame is doing the container's transform after the shape's own. */
  lemma EnteringPlaces(container: Frame, s: Shape, p: Point)
    ensures Apply(EnterShape(container, s).matrix, p) == Apply(container.matrix, Outward(s, p))
  {
    var m, o := container.matrix, Point(s.x, s.y);
    TurnedInside(m.linear, s.turn, o, p);
    var inner, outer := ApplyLinear(ComposeLinear(m.linear, Rotation(s.turn)), p), ApplyLinear(m.linear, o);
    assert EnterShape(container, s).matrix == Matrix(ComposeLinear(m.linear, Rotation(s.turn)), Nudged(outer, m.origin.x, m.origin.y));
    NudgedTwice(inner, outer.x, outer.y, m.origin.x, m.origin.y);
  }

  /** The frame the walk gives a shape places every point of it where it stands on the page. */
  lemma {:induction false} FramesPlace(shapes: seq<Shape>, pageId: Id, w: Walked, s: Shape, depth: nat, p: Point)
    requires IsTree(EnterShape, w, shapes, pageId) && OnlyListed(w, pageId)
    requires s in w.order && s.id in w.depth && w.depth[s.id] == depth
    ensures StandsAt(shapes, pageId, s, p, Apply(FrameAt(w, s.id).matrix, p), depth)
    decreases depth
  {
    assert Hangs(EnterShape, s, w, pageId);
    EnteringPlaces(FrameAt(w, s.parentId), s, p);
    if depth > 0 {
      var c := ListedShape(w.order, s.parentId);
      FramesPlace(shapes, pageId, w, c, depth - 1, Outward(s, p));
    }
  }

  /* ------------------------------------------------------------------------- boxes */

  /** The least box around the points: each lies in it, and each side has one of them on it. */
  ghost predicate Bounding(r: Rect, points: seq<Point>) {
    && (forall q :: q in points ==> r.x <= q.x <= r.x + r.w && r.y <= q.y <= r.y + r.h)
    && (exists q :: q in points && q.x == r.x) && (exists q :: q in points && q.x == r.x + r.w)
    && (exists q :: q in points && q.y == r.y) && (exists q :: q in points && q.y == r.y + r.h)
  }

  lemma BoxOfBounds(p: Point, q: Point, u: Point, v: Point)
    ensures Bounding(BoxOf(p, q, u, v), [p, q, u, v])
  {
    var points := [p, q, u, v];
    assert points[0] in points && points[1] in points && points[2] in points && points[3] in points;
  }

  /** Where the four corners of the shape's own box stand on the page. */
  ghost predicate Corners(shapes: seq<Shape>, pageId: Id, s: Shape, hops: nat, p: Point, q: Point, u: Point, v: Point) {
    && StandsAt(shapes, pageId, s, Point(s.box.x, s.box.y), p, hops)
    && StandsAt(shapes, pageId, s, Point(s.box.x + s.box.w, s.box.y), q, hops)
    && StandsAt(shapes, pageId, s, Point(s.box.x, s.box.y + s.box.h), u, hops)
    && StandsAt(shapes, pageId, s, Point(s.box.x + s.box.w, s.box.y + s.box.h), v, hops)
  }

  /** The least box around them. */
  ghost predicate BoxesShape(shapes: seq<Shape>, pageId: Id, s: Shape, r: Rect) {
    exists hops: nat, p, q, u, v :: Corners(shapes, pageId, s, hops, p, q, u, v) && Bounding(r, [p, q, u, v])
  }

  lemma MeasuredAround(shapes: seq<Shape>, pageId: Id, w: Walked, s: Shape)
    requires IsTree(EnterShape, w, shapes, pageId) && OnlyListed(w, pageId) && s in w.order
    ensures BoxesShape(shapes, pageId, s, MeasureBox(FrameAt(w, s.id), s.box))
  {
    assert Hangs(EnterShape, s, w, pageId);
    CornersArePlaced(shapes, pageId, w, s, w.depth[s.id], FrameAt(w, s.id).matrix, s.box);
  }

  lemma CornersArePlaced(shapes: seq<Shape>, pageId: Id, w: Walked, s: Shape, hops: nat, m: Matrix, r: Rect)
    requires IsTree(EnterShape, w, shapes, pageId) && OnlyListed(w, pageId)
    requires s in w.order && s.id in w.depth && w.depth[s.id] == hops && m == FrameAt(w, s.id).matrix && r == s.box
    ensures BoxesShape(shapes, pageId, s, Aabb(m, r))
  {
    FramesPlace(shapes, pageId, w, s, hops, Point(r.x, r.y));
    FramesPlace(shapes, pageId, w, s, hops, Point(Right(r), r.y));
    FramesPlace(shapes, pageId, w, s, hops, Point(r.x, Bottom(r)));
    FramesPlace(shapes, pageId, w, s, hops, Point(Right(r), Bottom(r)));
    CornersBound(shapes, pageId, s, hops, m);
  }

  lemma CornersBound(shapes: seq<Shape>, pageId: Id, s: Shape, hops: nat, m: Matrix)
    requires StandsAt(shapes, pageId, s, Point(s.box.x, s.box.y), Apply(m, Point(s.box.x, s.box.y)), hops)
    requires StandsAt(shapes, pageId, s, Point(Right(s.box), s.box.y), Apply(m, Point(Right(s.box), s.box.y)), hops)
    requires StandsAt(shapes, pageId, s, Point(s.box.x, Bottom(s.box)), Apply(m, Point(s.box.x, Bottom(s.box))), hops)
    requires StandsAt(shapes, pageId, s, Point(Right(s.box), Bottom(s.box)), Apply(m, Point(Right(s.box), Bottom(s.box))), hops)
    ensures BoxesShape(shapes, pageId, s, Aabb(m, s.box))
  {
    var r := s.box;
    var p, q := Apply(m, Point(r.x, r.y)), Apply(m, Point(Right(r), r.y));
    var u, v := Apply(m, Point(r.x, Bottom(r))), Apply(m, Point(Right(r), Bottom(r)));
    assert Corners(shapes, pageId, s, hops, p, q, u, v);
    BoxOfBounds(p, q, u, v);
  }

  /* ------------------------------------------------------------------------- arrows */

  /** Half a side, but never less than 1. */
  ghost function HalfOf(side: real): real {
    if side >= 2.0 then side / 2.0 else 1.0
  }

  /**
   * On the border of the box, thickened where it is thinner than 2, exactly in the direction in which the other point is
   * seen from its middle; in the middle only if that is where the other point is.
   */
  ghost predicate OnBorderToward(r: Rect, toward: Point, p: Point) {
    var mx, my := r.x + r.w / 2.0, r.y + r.h / 2.0;
    if toward == Point(mx, my) then p == toward
    else BorderPoint(toward.x - mx, toward.y - my, p.x - mx, p.y - my, r.w, r.h)
  }

  /** A positive multiple of the direction that reaches one side and goes beyond none. */
  ghost predicate BorderPoint(dx: real, dy: real, px: real, py: real, w: real, h: real) {
    && (exists t :: Along(dx, dy, px, py, t))
    && -HalfOf(w) <= px <= HalfOf(w) && -HalfOf(h) <= py <= HalfOf(h)
    && (px == HalfOf(w) || px == -HalfOf(w) || py == HalfOf(h) || py == -HalfOf(h))
  }

  ghost predicate Along(dx: real, dy: real, px: real, py: real, t: real) {
    t > 0.0 && px == dx * t && py == dy * t
  }

  lemma ReachesSide(d: real, r: real, scale: real)
    requires r > 0.0 && scale > 0.0 && Abs(d) / r == scale
    ensures Abs(d * (1.0 / scale)) == r
  {
    assert Abs(d) == scale * r;
    assert Abs(d) * (1.0 / scale) == r * (scale * (1.0 / scale));
  }

  lemma ReciprocalIsPositive(x: real)
    requires x > 0.0
    ensures 1.0 / x > 0.0
  {
    assert x * (1.0 / x) == 1.0;
  }

  lemma LeaveReaches(dx: real, dy: real, w: real, h: real)
    requires dx != 0.0 || dy != 0.0
    ensures var d := Leave(dx, dy, Half(w), Half(h)); BorderPoint(dx, dy, d.x, d.y, w, h)
  {
    var rx, ry := Half(w), Half(h);
    LeaveStaysWithin(dx, dy, rx, ry);
    ScaleIsPositive(dx, dy, rx, ry);
    var scale := LeaveScale(dx, dy, rx, ry);
    ReciprocalIsPositive(scale);
    if Abs(dx) / rx == scale {
      ReachesSide(dx, rx, scale);
    } else {
      ReachesSide(dy, ry, scale);
    }
    var d := Leave(dx, dy, rx, ry);
    assert rx == HalfOf(w) && ry == HalfOf(h);
    assert d.x == dx * (1.0 / scale) && d.y == dy * (1.0 / scale);
    assert -rx <= d.x <= rx && -ry <= d.y <= ry;
    assert d.x == rx || d.x == -rx || d.y == ry || d.y == -ry;
    assert Along(dx, dy, dx * (1.0 / scale), dy * (1.0 / scale), 1.0 / scale);
  }

  /** An arrow leaves a box on the side of it that faces its other end. */
  lemma EdgeFaces(r: Rect, toward: Point)
    ensures OnBorderToward(r, toward, EdgePoint(r, toward))
  {
    var c := Centre(r);
    if toward != c {
      LeaveReaches(toward.x - c.x, toward.y - c.y, r.w, r.h);
    }
  }

  /** What the i-th shape, an arrow, can be bound to: a box of the page, or an arrow drawn before it. */
  ghost predicate Bindable(order: seq<Shape>, i: nat, id: Id) {
    exists j :: 0 <= j < |order| && order[j].id == id && (order[j].kind == Box || (order[j].kind.Arrow? && j < i))
  }

  /** A binding of this terminal to something it can be bound to. */
  ghost predicate Binds(order: seq<Shape>, i: nat, tie: Tie, terminal: Terminal) {
    tie.terminal == terminal && Bindable(order, i, tie.toId)
  }

  /** The last of the ties that will do; or none will. */
  ghost predicate LastOf(ties: seq<Tie>, fits: Tie -> bool, tie: Option<Tie>) {
    match tie
    case None => forall k :: 0 <= k < |ties| ==> !fits(ties[k])
    case Some(t) => fits(t) && exists k :: 0 <= k < |ties| && ties[k] == t && forall j :: k < j < |ties| ==> !fits(ties[j])
  }

  /** The last of the bindings that bind this terminal; or none does. */
  ghost predicate Decides(order: seq<Shape>, i: nat, ties: seq<Tie>, terminal: Terminal, tie: Option<Tie>) {
    LastOf(ties, (t: Tie) => Binds(order, i, t, terminal), tie)
  }

  lemma KnownIsBindable(order: seq<Shape>, i: nat, id: Id)
    requires i <= |order|
    ensures id in Known(order, i) <==> Bindable(order, i, id)
  {
    if id in Known(order, i) {
      if s :| s in order && s.kind == Box && s.id == id {
        var j :| 0 <= j < |order| && order[j] == s;
      } else {
        var s :| s in order[..i] && s.kind.Arrow? && s.id == id;
        var j :| 0 <= j < i && order[j] == s;
      }
    }
    if j :| 0 <= j < |order| && order[j].id == id && (order[j].kind == Box || (order[j].kind.Arrow? && j < i)) {
      assert order[j] in order;
      assert j < i ==> order[..i][j] in order[..i];
    }
  }

  lemma {:induction false} TieDecides(order: seq<Shape>, i: nat, ties: seq<Tie>, terminal: Terminal)
    requires i <= |order|
    ensures Decides(order, i, ties, terminal, TieAt(Known(order, i), ties, terminal))
    decreases |ties|
  {
    if ties != [] {
      var n := |ties| - 1;
      KnownIsBindable(order, i, ties[n].toId);
      TieDecides(order, i, ties[..n], terminal);
      OneMoreTie(ties, (t: Tie) => Binds(order, i, t, terminal), TieAt(Known(order, i), ties[..n], terminal));
    }
  }

  lemma OneMoreTie(ties: seq<Tie>, fits: Tie -> bool, tie: Option<Tie>)
    requires ties != [] && LastOf(ties[..|ties| - 1], fits, tie)
    ensures var last := ties[|ties| - 1]; LastOf(ties, fits, if fits(last) then Some(last) else tie)
  {
    var front := ties[..|ties| - 1];
    assert forall k :: 0 <= k < |front| ==> front[k] == ties[k];
    if !fits(ties[|ties| - 1]) && tie.Some? {
      var k :| 0 <= k < |front| && front[k] == tie.value && forall j :: k < j < |front| ==> !fits(front[j]);
      assert ties[k] == tie.value;
    }
  }

  /** Where an end is looked at from: the middle of what the other terminal is bound to, or that terminal as stored. */
  ghost predicate SeenFrom(b: map<Id, Rect>, tie: Option<Tie>, stored: Point, p: Point) {
    match tie
    case None => p == stored
    case Some(t) => t.toId in b && var r := b[t.toId]; p == Point(r.x + r.w / 2.0, r.y + r.h / 2.0)
  }

  /** An end is as stored, at its anchor in the box it is bound to, or on the border of that box toward the other end. */
  ghost predicate EndsAt(b: map<Id, Rect>, tie: Option<Tie>, stored: Point, toward: Point, p: Point) {
    match tie
    case None => p == stored
    case Some(t) =>
      && t.toId in b
      && var r := b[t.toId];
         match t.anchor {
           case None => OnBorderToward(r, toward, p)
           case Some(a) => p == Point(r.x + a.x * r.w, r.y + a.y * r.h)
         }
  }

  /** The box of the i-th shape, an arrow: around its two ends, wider on every side by as much as it bends. */
  ghost predicate BoxesArrow(shapes: seq<Shape>, pageId: Id, order: seq<Shape>, b: map<Id, Rect>, i: nat, line: Line, r: Rect)
    requires i < |order|
  {
    exists hops: nat, tail, head, tailTie, headTie, tailAim, headAim, p, q ::
      && StandsAt(shapes, pageId, order[i], line.tail, tail, hops) && StandsAt(shapes, pageId, order[i], line.head, head, hops)
      && Decides(order, i, line.ties, Tail, tailTie) && Decides(order, i, line.ties, Head, headTie)
      && SeenFrom(b, tailTie, tail, tailAim) && SeenFrom(b, headTie, head, headAim)
      && EndsAt(b, tailTie, tail, headAim, p) && EndsAt(b, headTie, head, tailAim, q)
      && Widened(r, p, q, Abs(line.bend))
  }

  /** Taking this much off every side leaves the least box around the two points. */
  ghost predicate Widened(r: Rect, p: Point, q: Point, margin: real) {
    margin >= 0.0 && Bounding(Rect(r.x + margin, r.y + margin, r.w - 2.0 * margin, r.h - 2.0 * margin), [p, q])
  }

  lemma SpannedIsWidened(p: Point, q: Point, margin: real)
    requires margin >= 0.0
    ensures Widened(Spanned(p, q, margin), p, q, margin)
  {
    assert [p, q][0] in [p, q] && [p, q][1] in [p, q];
  }

  lemma EndIsThere(b: map<Id, Rect>, tie: Option<Tie>, stored: Point, toward: Point)
    requires tie.Some? ==> tie.value.toId in b
    ensures EndsAt(b, tie, stored, toward, EndPoint(PAGE_BOXING, b, tie, stored, toward))
    ensures SeenFrom(b, tie, stored, Aim(b, tie, stored))
  {
    if tie.Some? {
      EdgeFaces(b[tie.value.toId], toward);
    }
  }

  lemma DrawnAround(shapes: seq<Shape>, pageId: Id, l: Layout, i: nat)
    requires IsTree(EnterShape, l.walked, shapes, pageId) && OnlyListed(l.walked, pageId)
    requires i < |l.walked.order| && l.walked.order[i].kind.Arrow? && Drawn(PAGE_BOXING, l.walked, l.bounds, i)
    ensures var a := l.walked.order[i]; BoxesArrow(shapes, pageId, l.walked.order, l.bounds, i, a.kind.line, l.bounds[a.id])
  {
    var w, b, a := l.walked, l.bounds, l.walked.order[i];
    var line, f, known := a.kind.line, FrameAt(w, a.id), Known(w.order, i);
    assert a in w.order;
    assert Hangs(EnterShape, a, w, pageId);
    FramesPlace(shapes, pageId, w, a, w.depth[a.id], line.tail);
    FramesPlace(shapes, pageId, w, a, w.depth[a.id], line.head);
    TieDecides(w.order, i, line.ties, Tail);
    TieDecides(w.order, i, line.ties, Head);
    var tail, head := PlacePoint(f, line.tail), PlacePoint(f, line.head);
    var tailTie, headTie := TieAt(known, line.ties, Tail), TieAt(known, line.ties, Head);
    EndIsThere(b, tailTie, tail, Aim(b, headTie, head));
    EndIsThere(b, headTie, head, Aim(b, tailTie, tail));
    SpannedIsWidened(TailOf(PAGE_BOXING, b, known, line, tail, head), HeadOf(PAGE_BOXING, b, known, line, tail, head), Abs(line.bend));
  }

  /* ------------------------------------------------------------------------- groups */

  /** A record directly in the group that has a box. */
  ghost predicate Member(shapes: seq<Shape>, b: map<Id, Rect>, g: Shape, c: Shape) {
    c in shapes && c.parentId == g.id && c.id in b
  }

  /** The least box around the boxes of its members; where it stands on the page if it has none. */
  ghost predicate BoxesGroup(shapes: seq<Shape>, pageId: Id, b: map<Id, Rect>, g: Shape, r: Rect) {
    if exists c :: Member(shapes, b, g, c) then
      && (forall c :: Member(shapes, b, g, c) ==> Inside(b[c.id], r))
      && (forall box :: (forall c :: Member(shapes, b, g, c) ==> Inside(b[c.id], box)) ==> Inside(r, box))
    else
      r.w == 0.0 && r.h == 0.0 && exists hops: nat :: StandsAt(shapes, pageId, g, Point(0.0, 0.0), Point(r.x, r.y), hops)
  }

  lemma {:induction false} LaidOutMembers(list: seq<Shape>, b: map<Id, Rect>, r: Rect)
    ensures r in LaidOut(list, b) <==> exists c :: c in list && c.id in b && b[c.id] == r
    decreases |list|
  {
    if list != [] {
      LaidOutMembers(list[..|list| - 1], b, r);
      assert forall c :: c in list <==> c == list[|list| - 1] || c in list[..|list| - 1];
    }
  }

  lemma UnionAround(shapes: seq<Shape>, pageId: Id, l: Layout, g: Shape)
    requires IsTree(EnterShape, l.walked, shapes, pageId) && OnlyListed(l.walked, pageId) && g in l.walked.order
    ensures BoxesGroup(shapes, pageId, l.bounds, g, GroupBox(shapes, l.walked, l.bounds, g))
  {
    var b, children := l.bounds, Children(shapes, g.id);
    var members := LaidOut(children, b);
    ChildMembers(shapes, g.id);
    forall c | Member(shapes, b, g, c)
      ensures b[c.id] in members
    {
      LaidOutMembers(children, b, b[c.id]);
    }
    forall r | r in members
      ensures exists c :: Member(shapes, b, g, c) && b[c.id] == r
    {
      LaidOutMembers(children, b, r);
      var c :| c in children && c.id in b && b[c.id] == r;
      assert Member(shapes, b, g, c);
    }
    if members == [] {
      assert Hangs(EnterShape, g, l.walked, pageId);
      FramesPlace(shapes, pageId, l.walked, g, l.walked.depth[g.id], Point(0.0, 0.0));
    } else {
      assert members[0] in members;
      UnionIsLeastBox(members);
    }
  }

  /* --------------------------------------------------------------------------- the page */

  ghost predicate Boxed(shapes: seq<Shape>, pageId: Id, l: Layout, i: nat)
    requires i < |l.walked.order|
  {
    var s := l.walked.order[i];
    && s.id in l.bounds
    && match s.kind
       case Box => BoxesShape(shapes, pageId, s, l.bounds[s.id])
       case Arrow(line) => BoxesArrow(shapes, pageId, l.walked.order, l.bounds, i, line, l.bounds[s.id])
       case Group => BoxesGroup(shapes, pageId, l.bounds, s, l.bounds[s.id])
  }

  /** Every listed shape has a box, and the box is what it is to be on the page. */
  lemma LayoutIsOutlined(shapes: seq<Shape>, pageId: Id)
    requires UniqueIds(shapes, pageId)
    ensures var l := ComputeLayout(shapes, pageId); forall i :: 0 <= i < |l.walked.order| ==> Boxed(shapes, pageId, l, i)
  {
    var l := ComputeLayout(shapes, pageId);
    WalkedPageIsTree(EnterShape, shapes, pageId);
    WalkedPageIsComplete(EnterShape, shapes, pageId);
    GroupsAreUnions(EnterShape, PAGE_BOXING, shapes, pageId);
    forall i | 0 <= i < |l.walked.order|
      ensures Boxed(shapes, pageId, l, i)
    {
      var s := l.walked.order[i];
      assert s in l.walked.order;
      match s.kind
      case Box => MeasuredAround(shapes, pageId, l.walked, s);
      case Arrow(_) => DrawnAround(shapes, pageId, l, i);
      case Group => UnionAround(shapes, pageId, l, s);
    }
  }
}
