/**
 * Page-space boxes: shapes from their frames, then arrows from what they are bound to, then groups as the union of
 * what they contain, innermost first.
 */
module LayoutBounds {
  import opened Wrappers
  import opened Geometry
  import opened LayoutTree

  /**
   * What the boxes are made from: a frame and an unrotated box give a page-space box, a frame and a point in it a
   * point of the page, and a box and a point it is looked at from the point where an arrow leaves the box.
   */
  datatype Boxing = Boxing(measure: (Frame, Rect) -> Rect, place: (Frame, Point) -> Point, edge: (Rect, Point) -> Point)

  /* -------------------------------------------------------------- shapes and arrows */

  function ShapeBoxes(how: Boxing, w: Walked, order: seq<Shape>): map<Id, Rect>
    decreases |order|
  {
    if order == [] then map[]
    else
      var front := ShapeBoxes(how, w, order[..|order| - 1]);
      var s := order[|order| - 1];
      if s.kind == Box then front[s.id := how.measure(FrameAt(w, s.id), s.box)] else front
  }

  /** The binding that decides a terminal: the last one to something that has a box by then. */
  function TieAt(known: set<Id>, ties: seq<Tie>, terminal: Terminal): (tie: Option<Tie>)
    ensures tie.Some? ==> tie.value in ties && tie.value.terminal == terminal && tie.value.toId in known
    decreases |ties|
  {
    if ties == [] then None
    else
      var last := ties[|ties| - 1];
      if last.terminal == terminal && last.toId in known then Some(last) else TieAt(known, ties[..|ties| - 1], terminal)
  }

  /** Where a terminal is: at its binding's target, or where it is stored. */
  function Aim(b: map<Id, Rect>, tie: Option<Tie>, stored: Point): Point
    requires tie.Some? ==> tie.value.toId in b
  {
    if tie.Some? then Centre(b[tie.value.toId]) else stored
  }

  function Anchored(r: Rect, anchor: Point): Point {
    Point(r.x + anchor.x * r.w, r.y + anchor.y * r.h)
  }

  /** A precise binding ends in the target's box; any other at the edge that faces the other terminal. */
  function EndPoint(how: Boxing, b: map<Id, Rect>, tie: Option<Tie>, stored: Point, toward: Point): Point
    requires tie.Some? ==> tie.value.toId in b
  {
    match tie
    case None => stored
    case Some(t) => if t.anchor.Some? then Anchored(b[t.toId], t.anchor.value) else how.edge(b[t.toId], toward)
  }

  function TailOf(how: Boxing, b: map<Id, Rect>, known: set<Id>, line: Line, tail: Point, head: Point): Point
    requires known <= b.Keys
  {
    EndPoint(how, b, TieAt(known, line.ties, Tail), tail, Aim(b, TieAt(known, line.ties, Head), head))
  }

  function HeadOf(how: Boxing, b: map<Id, Rect>, known: set<Id>, line: Line, tail: Point, head: Point): Point
    requires known <= b.Keys
  {
    EndPoint(how, b, TieAt(known, line.ties, Head), head, Aim(b, TieAt(known, line.ties, Tail), tail))
  }

  /** The box around two points, wider by the bend on every side. */
  function Spanned(p: Point, q: Point, bend: real): Rect {
    Rect(Min(p.x, q.x) - bend, Min(p.y, q.y) - bend, Abs(q.x - p.x) + bend * 2.0, Abs(q.y - p.y) + bend * 2.0)
  }

  /** An arrow's box, when the ids in `known` are those that have a box. */
  function ArrowBox(how: Boxing, b: map<Id, Rect>, known: set<Id>, f: Frame, line: Line): Rect
    requires known <= b.Keys
  {
    var tail, head := how.place(f, line.tail), how.place(f, line.head);
    Spanned(TailOf(how, b, known, line, tail, head), HeadOf(how, b, known, line, tail, head), Abs(line.bend))
  }

  /** Arrows in visiting order, so that one may end at an arrow that came before. */
  function ArrowBoxes(how: Boxing, w: Walked, order: seq<Shape>, b: map<Id, Rect>): map<Id, Rect>
    decreases |order|
  {
    if order == [] then b
    else
      var front := ArrowBoxes(how, w, order[..|order| - 1], b);
      var s := order[|order| - 1];
      if s.kind.Arrow? then front[s.id := ArrowBox(how, front, front.Keys, FrameAt(w, s.id), s.kind.line)] else front
  }

  /* ------------------------------------------------------------------------- groups */

  function LaidOut(list: seq<Shape>, b: map<Id, Rect>): seq<Rect>
    decreases |list|
  {
    if list == [] then []
    else
      var front := LaidOut(list[..|list| - 1], b);
      var s := list[|list| - 1];
      if s.id in b then front + [b[s.id]] else front
  }

  /** The union of the laid-out members, or an empty box at the group's own origin. */
  function GroupBox(shapes: seq<Shape>, w: Walked, b: map<Id, Rect>, g: Shape): Rect {
    var members := LaidOut(Children(shapes, g.id), b);
    if members == [] then Rect(FrameAt(w, g.id).matrix.origin.x, FrameAt(w, g.id).matrix.origin.y, 0.0, 0.0)
    else Union(members)
  }

  /** Groups among the first n shapes of the visiting order, last first. */
  function GroupPass(shapes: seq<Shape>, w: Walked, n: nat, b: map<Id, Rect>): map<Id, Rect>
    requires n <= |w.order|
    decreases n
  {
    if n == 0 then b
    else
      var s := w.order[n - 1];
      GroupPass(shapes, w, n - 1, if s.kind == Group then b[s.id := GroupBox(shapes, w, b, s)] else b)
  }

  function BoundsOf(how: Boxing, shapes: seq<Shape>, w: Walked): map<Id, Rect> {
    GroupPass(shapes, w, |w.order|, ArrowBoxes(how, w, w.order, ShapeBoxes(how, w, w.order)))
  }

  /* ------------------------------------------------------- what the arrow pass settles */

  function BoxIds(order: seq<Shape>): set<Id> {
    set s | s in order && s.kind == Box :: s.id
  }

  function ArrowIds(order: seq<Shape>): set<Id> {
    set s | s in order && s.kind.Arrow? :: s.id
  }

  /** What the i-th shape can be bound to: every box, and the arrows that come before it. */
  function Known(order: seq<Shape>, i: nat): set<Id>
    requires i <= |order|
  {
    BoxIds(order) + ArrowIds(order[..i])
  }

  lemma {:induction false} ShapeBoxMembers(how: Boxing, w: Walked, order: seq<Shape>)
    requires Listed(order)
    ensures ShapeBoxes(how, w, order).Keys == BoxIds(order)
    ensures forall s :: s in order && s.kind == Box ==> ShapeBoxes(how, w, order)[s.id] == how.measure(FrameAt(w, s.id), s.box)
    decreases |order|
  {
    if order != [] {
      var front, last := order[..|order| - 1], order[|order| - 1];
      ShapeBoxMembers(how, w, front);
      forall s | s in front
        ensures s.id != last.id
      {
        var k :| 0 <= k < |front| && front[k] == s;
        assert order[k] == s;
      }
      assert forall s :: s in order <==> s == last || s in front;
    }
  }

  /** Every box and the first n arrows have a box, those of the boxes as before. */
  lemma {:induction false} ArrowBoxMembers(how: Boxing, w: Walked, order: seq<Shape>, b: map<Id, Rect>)
    ensures ArrowBoxes(how, w, order, b).Keys == b.Keys + ArrowIds(order)
    ensures forall k :: k in b && k !in ArrowIds(order) ==> ArrowBoxes(how, w, order, b)[k] == b[k]
    decreases |order|
  {
    if order != [] {
      var front, last := order[..|order| - 1], order[|order| - 1];
      ArrowBoxMembers(how, w, front, b);
      assert forall s :: s in order <==> s == last || s in front;
    }
  }

  lemma ArrowBoxAgrees(how: Boxing, b: map<Id, Rect>, b': map<Id, Rect>, known: set<Id>, f: Frame, line: Line)
    requires known <= b.Keys && known <= b'.Keys && forall k :: k in known ==> b'[k] == b[k]
    ensures ArrowBox(how, b', known, f, line) == ArrowBox(how, b, known, f, line)
  {
  }

  /** The first n shapes' arrows end at the boxes `b` has for what they are bound to. */
  ghost predicate ArrowsDrawn(how: Boxing, w: Walked, b: map<Id, Rect>, n: nat)
    requires n <= |w.order|
  {
    forall i :: 0 <= i < n && w.order[i].kind.Arrow? ==> Drawn(how, w, b, i)
  }

  ghost predicate Drawn(how: Boxing, w: Walked, b: map<Id, Rect>, i: nat)
    requires i < |w.order| && w.order[i].kind.Arrow?
  {
    var a := w.order[i];
    a.id in b && Known(w.order, i) <= b.Keys && b[a.id] == ArrowBox(how, b, Known(w.order, i), FrameAt(w, a.id), a.kind.line)
  }

  lemma KnownIsOther(order: seq<Shape>, i: nat, j: nat)
    requires Listed(order) && i <= j < |order| && order[j].kind != Box
    ensures order[j].id !in Known(order, i)
  {
  }

  lemma DrawnStays(how: Boxing, w: Walked, b: map<Id, Rect>, b': map<Id, Rect>, i: nat, k: Id)
    requires i < |w.order| && w.order[i].kind.Arrow? && Drawn(how, w, b, i)
    requires b'.Keys >= b.Keys && k != w.order[i].id && k !in Known(w.order, i) && forall x :: x in b && x != k ==> b'[x] == b[x]
    ensures Drawn(how, w, b', i)
  {
    var a := w.order[i];
    ArrowBoxAgrees(how, b, b', Known(w.order, i), FrameAt(w, a.id), a.kind.line);
  }

  lemma {:induction false} ArrowsAreDrawn(how: Boxing, w: Walked, n: nat)
    requires Listed(w.order) && n <= |w.order|
    ensures var b := ArrowBoxes(how, w, w.order[..n], ShapeBoxes(how, w, w.order));
            b.Keys == Known(w.order, n) && ArrowsDrawn(how, w, b, n)
    decreases n
  {
    ShapeBoxMembers(how, w, w.order);
    ArrowBoxMembers(how, w, w.order[..n], ShapeBoxes(how, w, w.order));
    if n > 0 {
      ArrowsAreDrawn(how, w, n - 1);
      DrawNext(how, w, n - 1);
    }
  }

  lemma DrawNext(how: Boxing, w: Walked, n: nat)
    requires Listed(w.order) && n < |w.order|
    requires var b := ArrowBoxes(how, w, w.order[..n], ShapeBoxes(how, w, w.order)); b.Keys == Known(w.order, n) && ArrowsDrawn(how, w, b, n)
    ensures ArrowsDrawn(how, w, ArrowBoxes(how, w, w.order[..n + 1], ShapeBoxes(how, w, w.order)), n + 1)
  {
    assert w.order[..n + 1][..n] == w.order[..n];
    if w.order[n].kind.Arrow? {
      DrawOne(how, w, ArrowBoxes(how, w, w.order[..n], ShapeBoxes(how, w, w.order)), n);
    }
  }

  lemma DrawOne(how: Boxing, w: Walked, b: map<Id, Rect>, n: nat)
    requires Listed(w.order) && n < |w.order| && w.order[n].kind.Arrow? && b.Keys == Known(w.order, n) && ArrowsDrawn(how, w, b, n)
    ensures ArrowsDrawn(how, w, b[w.order[n].id := ArrowBox(how, b, b.Keys, FrameAt(w, w.order[n].id), w.order[n].kind.line)], n + 1)
  {
    var a := w.order[n];
    var b' := b[a.id := ArrowBox(how, b, b.Keys, FrameAt(w, a.id), a.kind.line)];
    KnownIsOther(w.order, n, n);
    ArrowBoxAgrees(how, b, b', Known(w.order, n), FrameAt(w, a.id), a.kind.line);
    forall i | 0 <= i < n && w.order[i].kind.Arrow?
      ensures Drawn(how, w, b', i)
    {
      KnownIsOther(w.order, i, n);
      DrawnStays(how, w, b, b', i, a.id);
    }
  }

  /** Only listed shapes have bounds. */
  ghost predicate BoundsListed(w: Walked, b: map<Id, Rect>) {
    forall id :: id in b ==> Lists(w.order, id)
  }

  lemma ShapesAreListed(how: Boxing, w: Walked)
    requires Listed(w.order)
    ensures BoundsListed(w, ArrowBoxes(how, w, w.order, ShapeBoxes(how, w, w.order)))
  {
    ShapeBoxMembers(how, w, w.order);
    ArrowBoxMembers(how, w, w.order, ShapeBoxes(how, w, w.order));
    forall s | s in w.order
      ensures Lists(w.order, s.id)
    {
      IsListed(w.order, s);
    }
  }

  /* ------------------------------------------------------- what the group pass settles */

  lemma {:induction false} LaidOutAgrees(list: seq<Shape>, b: map<Id, Rect>, b': map<Id, Rect>)
    requires forall s :: s in list ==> (s.id in b <==> s.id in b') && (s.id in b ==> b'[s.id] == b[s.id])
    ensures LaidOut(list, b') == LaidOut(list, b)
    decreases |list|
  {
    if list != [] {
      var last := list[|list| - 1];
      assert last in list;
      LaidOutAgrees(list[..|list| - 1], b, b');
    }
  }

  /** Processing a group later in the pass cannot disturb one that came before: a group never precedes its container. */
  lemma SettledGroupStays(enter: Entering, shapes: seq<Shape>, pageId: Id, w: Walked, b: map<Id, Rect>, i: nat, n: nat, r: Rect)
    requires IsTree(enter, w, shapes, pageId) && UniqueIds(shapes, pageId)
    requires n <= i < |w.order| && 0 < n
    ensures GroupBox(shapes, w, b[w.order[n - 1].id := r], w.order[i]) == GroupBox(shapes, w, b, w.order[i])
  {
    var g, s := w.order[i], w.order[n - 1];
    var list := Children(shapes, g.id);
    ChildMembers(shapes, g.id);
    assert s in w.order && g in w.order;
    assert s.parentId != g.id;
    forall c | c in list
      ensures c.id != s.id
    {
      if c.id == s.id {
        assert false;
      }
    }
    LaidOutAgrees(list, b, b[s.id := r]);
  }

  lemma OwnBoxStays(enter: Entering, shapes: seq<Shape>, pageId: Id, w: Walked, b: map<Id, Rect>, i: nat, r: Rect)
    requires IsTree(enter, w, shapes, pageId) && UniqueIds(shapes, pageId) && i < |w.order|
    ensures GroupBox(shapes, w, b[w.order[i].id := r], w.order[i]) == GroupBox(shapes, w, b, w.order[i])
  {
    var g := w.order[i];
    var list := Children(shapes, g.id);
    ChildMembers(shapes, g.id);
    assert g in w.order && g.parentId != g.id;
    forall c | c in list
      ensures c.id != g.id
    {
      if c.id == g.id {
        assert false;
      }
    }
    LaidOutAgrees(list, b, b[g.id := r]);
  }

  /** From the n-th shape on, every group has its final box. */
  ghost predicate SettledFrom(shapes: seq<Shape>, w: Walked, b: map<Id, Rect>, n: nat) {
    forall i :: n <= i < |w.order| && w.order[i].kind == Group ==>
      w.order[i].id in b && b[w.order[i].id] == GroupBox(shapes, w, b, w.order[i])
  }

  lemma SettleOne(enter: Entering, shapes: seq<Shape>, pageId: Id, w: Walked, b: map<Id, Rect>, n: nat)
    requires IsTree(enter, w, shapes, pageId) && UniqueIds(shapes, pageId) && 0 < n <= |w.order|
    requires SettledFrom(shapes, w, b, n) && w.order[n - 1].kind == Group
    ensures SettledFrom(shapes, w, b[w.order[n - 1].id := GroupBox(shapes, w, b, w.order[n - 1])], n - 1)
  {
    var s := w.order[n - 1];
    var r := GroupBox(shapes, w, b, s);
    OwnBoxStays(enter, shapes, pageId, w, b, n - 1, r);
    forall i | n <= i < |w.order| && w.order[i].kind == Group
      ensures w.order[i].id != s.id && b[s.id := r][w.order[i].id] == GroupBox(shapes, w, b[s.id := r], w.order[i])
    {
      SettledGroupStays(enter, shapes, pageId, w, b, i, n, r);
    }
  }

  /** The boxes after visiting one more shape of the group pass. */
  function GroupStep(shapes: seq<Shape>, w: Walked, b: map<Id, Rect>, s: Shape): map<Id, Rect> {
    if s.kind == Group then b[s.id := GroupBox(shapes, w, b, s)] else b
  }

  lemma GroupPassSteps(shapes: seq<Shape>, w: Walked, n: nat, b: map<Id, Rect>)
    requires 0 < n <= |w.order|
    ensures GroupPass(shapes, w, n, b) == GroupPass(shapes, w, n - 1, GroupStep(shapes, w, b, w.order[n - 1]))
  {
  }

  /** The boxes of shapes that are not groups are left alone. */
  ghost predicate SameShapeBoxes(order: seq<Shape>, b: map<Id, Rect>, b': map<Id, Rect>) {
    b.Keys <= b'.Keys && forall s :: s in order && s.kind != Group && s.id in b ==> b'[s.id] == b[s.id]
  }

  lemma SettleStep(enter: Entering, shapes: seq<Shape>, pageId: Id, w: Walked, n: nat, b: map<Id, Rect>)
    requires IsTree(enter, w, shapes, pageId) && UniqueIds(shapes, pageId) && 0 < n <= |w.order| && SettledFrom(shapes, w, b, n)
    ensures SettledFrom(shapes, w, GroupStep(shapes, w, b, w.order[n - 1]), n - 1)
    ensures SameShapeBoxes(w.order, b, GroupStep(shapes, w, b, w.order[n - 1]))
  {
    if w.order[n - 1].kind == Group {
      SettleOne(enter, shapes, pageId, w, b, n);
      BoxIsNotGroup(w.order, n - 1);
    }
  }

  lemma {:induction false} GroupPassSettles(enter: Entering, shapes: seq<Shape>, pageId: Id, w: Walked, n: nat, b: map<Id, Rect>)
    requires IsTree(enter, w, shapes, pageId) && UniqueIds(shapes, pageId) && n <= |w.order|
    requires SettledFrom(shapes, w, b, n)
    ensures SettledFrom(shapes, w, GroupPass(shapes, w, n, b), 0)
    ensures SameShapeBoxes(w.order, b, GroupPass(shapes, w, n, b))
    decreases n
  {
    if n > 0 {
      var s := w.order[n - 1];
      SettleStep(enter, shapes, pageId, w, n, b);
      GroupPassSteps(shapes, w, n, b);
      GroupPassSettles(enter, shapes, pageId, w, n - 1, GroupStep(shapes, w, b, s));
    }
  }

  lemma BoxIsNotGroup(order: seq<Shape>, i: nat)
    requires Listed(order) && i < |order| && order[i].kind == Group
    ensures forall s :: s in order && s.kind != Group ==> s.id != order[i].id
  {
  }

  lemma KnownIsKept(order: seq<Shape>, b: map<Id, Rect>, b': map<Id, Rect>, i: nat)
    requires SameShapeBoxes(order, b, b') && i <= |order| && Known(order, i) <= b.Keys
    ensures Known(order, i) <= b'.Keys && forall k :: k in Known(order, i) ==> b'[k] == b[k]
  {
  }

  lemma GroupsLeaveArrows(how: Boxing, w: Walked, b: map<Id, Rect>, b': map<Id, Rect>)
    requires SameShapeBoxes(w.order, b, b') && ArrowsDrawn(how, w, b, |w.order|)
    ensures ArrowsDrawn(how, w, b', |w.order|)
  {
    forall i | 0 <= i < |w.order| && w.order[i].kind.Arrow?
      ensures Drawn(how, w, b', i)
    {
      var a := w.order[i];
      assert Drawn(how, w, b, i) && a in w.order;
      KnownIsKept(w.order, b, b', i);
      ArrowBoxAgrees(how, b, b', Known(w.order, i), FrameAt(w, a.id), a.kind.line);
    }
  }

  /**
   * In the finished layout every group's box is the union of the final boxes of what it contains, nested
   * groups and arrows included, every arrow ends at the final boxes of what it is bound to, and every other
   * shape's box is the one its frame gives it.
   */
  lemma GroupsAreUnions(enter: Entering, how: Boxing, shapes: seq<Shape>, pageId: Id)
    requires UniqueIds(shapes, pageId)
    ensures var w := WalkPage(enter, shapes, pageId); var b := BoundsOf(how, shapes, w);
            && (forall s :: s in w.order && s.kind == Box ==> s.id in b && b[s.id] == how.measure(FrameAt(w, s.id), s.box))
            && ArrowsDrawn(how, w, b, |w.order|)
            && (forall g :: g in w.order && g.kind == Group ==> g.id in b && b[g.id] == GroupBox(shapes, w, b, g))
  {
    var w := WalkPage(enter, shapes, pageId);
    var b := ArrowBoxes(how, w, w.order, ShapeBoxes(how, w, w.order));
    WalkedPageIsTree(enter, shapes, pageId);
    BoxesAreMeasured(how, w, b);
    ArrowsAreDrawn(how, w, |w.order|);
    assert w.order[..|w.order|] == w.order;
    GroupPassSettles(enter, shapes, pageId, w, |w.order|, b);
    GroupsLeaveArrows(how, w, b, BoundsOf(how, shapes, w));
  }

  lemma BoxIsNoArrow(order: seq<Shape>)
    requires Listed(order)
    ensures forall s :: s in order && s.kind == Box ==> s.id !in ArrowIds(order)
  {
  }

  lemma BoxesAreMeasured(how: Boxing, w: Walked, b: map<Id, Rect>)
    requires Listed(w.order) && b == ArrowBoxes(how, w, w.order, ShapeBoxes(how, w, w.order))
    ensures forall s :: s in w.order && s.kind == Box ==> s.id in b && b[s.id] == how.measure(FrameAt(w, s.id), s.box)
  {
    BoxIsNoArrow(w.order);
    ShapeBoxMembers(how, w, w.order);
    ArrowBoxMembers(how, w, w.order, ShapeBoxes(how, w, w.order));
  }

  lemma {:induction false} GroupPassListed(shapes: seq<Shape>, w: Walked, n: nat, b: map<Id, Rect>)
    requires n <= |w.order| && BoundsListed(w, b)
    ensures BoundsListed(w, GroupPass(shapes, w, n, b))
    decreases n
  {
    if n > 0 {
      var s := w.order[n - 1];
      IsListed(w.order, s);
      GroupPassListed(shapes, w, n - 1, if s.kind == Group then b[s.id := GroupBox(shapes, w, b, s)] else b);
    }
  }

  lemma {:induction false} LaidOutMember(list: seq<Shape>, b: map<Id, Rect>, s: Shape)
    requires s in list && s.id in b
    ensures b[s.id] in LaidOut(list, b)
    decreases |list|
  {
    var last, front := list[|list| - 1], list[..|list| - 1];
    if s != last {
      LaidOutMember(front, b, s);
    }
  }

  /** A group's box contains the box of everything laid out directly in it. */
  lemma GroupContainsMember(shapes: seq<Shape>, w: Walked, b: map<Id, Rect>, g: Shape, s: Shape)
    requires s in shapes && s.parentId == g.id && s.id in b
    ensures Inside(b[s.id], GroupBox(shapes, w, b, g))
  {
    ChildMembers(shapes, g.id);
    var list := Children(shapes, g.id);
    LaidOutMember(list, b, s);
    UnionIsLeastBox(LaidOut(list, b));
  }
}
