/**
 * Page layout: the walk from the page down to every nested shape, page-space boxes of shapes, and groups
 * as the union of what they contain. Sibling lists are taken in paint order.
 */
module LayoutTree {
  import opened Wrappers
  import opened Geometry
  import opened Transforms

  type Id = string

  datatype Terminal = Tail | Head

  /** A binding of one terminal of an arrow to a shape, at a precise anchor in the shape's box or else at its edge. */
  datatype Tie = Tie(terminal: Terminal, toId: Id, anchor: Option<Point>)

  /** An arrow's terminals as stored, in its own frame, how far it bends, and its bindings. */
  datatype Line = Line(tail: Point, head: Point, bend: real, ties: seq<Tie>)

  datatype Kind = Box | Group | Arrow(line: Line)

  /** A shape record: its position in its container's frame, its own turn, and its unrotated box. */
  datatype Shape = Shape(id: Id, kind: Kind, x: real, y: real, turn: Turn, parentId: Id, box: Rect, locked: bool)

  /** The same record but for where it stands in its container. */
  ghost predicate SameRecord(s: Shape, s': Shape) {
    s' == s.(x := s'.x, y := s'.y)
  }

  ghost predicate SameRecords(list: seq<Shape>, list': seq<Shape>) {
    |list'| == |list| && forall i :: 0 <= i < |list| ==> SameRecord(list[i], list'[i])
  }

  const DEPTH_CAP: nat := 30

  /** A shape's page-space transform and its accumulated rotation. */
  datatype Frame = Frame(matrix: Matrix, turn: Turn)

  const PAGE_FRAME := Frame(IDENTITY, NO_TURN)

  function EnterShape(container: Frame, s: Shape): Frame {
    Frame(Compose(container.matrix, Local(s.x, s.y, s.turn)), Then(container.turn, s.turn))
  }

  /** How a container's frame determines the frame of a shape in it; the walk itself does not look inside. */
  type Entering = (Frame, Shape) -> Frame

  /** What the walk has produced: shapes in visiting order, and per visited id its frame and its depth. */
  datatype Walked = Walked(order: seq<Shape>, frame: map<Id, Frame>, depth: map<Id, nat>)

  function Children(shapes: seq<Shape>, parentId: Id): seq<Shape>
    decreases |shapes|
  {
    if shapes == [] then []
    else
      var front := Children(shapes[..|shapes| - 1], parentId);
      var s := shapes[|shapes| - 1];
      if s.parentId == parentId then front + [s] else front
  }

  function FrameAt(w: Walked, id: Id): Frame {
    if id in w.frame then w.frame[id] else PAGE_FRAME
  }

  function Visit(enter: Entering, w: Walked, s: Shape, depth: nat): Walked {
    Walked(w.order + [s], w.frame[s.id := enter(FrameAt(w, s.parentId), s)], w.depth[s.id := depth])
  }

  /** Depth-first from `parentId`; ids already seen are skipped and the depth is capped against parent loops. */
  function Walk(enter: Entering, shapes: seq<Shape>, parentId: Id, depth: nat, w: Walked): Walked
    requires depth <= DEPTH_CAP + 1
    decreases DEPTH_CAP + 1 - depth, 1, 0
  {
    if depth > DEPTH_CAP then w else WalkEach(enter, shapes, Children(shapes, parentId), depth, w)
  }

  function WalkEach(enter: Entering, shapes: seq<Shape>, list: seq<Shape>, depth: nat, w: Walked): Walked
    requires depth <= DEPTH_CAP
    decreases DEPTH_CAP + 1 - depth, 0, |list|
  {
    if list == [] then w
    else if list[0].id in w.frame then WalkEach(enter, shapes, list[1..], depth, w)
    else
      var w1 := Walk(enter, shapes, list[0].id, depth + 1, Visit(enter, w, list[0], depth));
      WalkEach(enter, shapes, list[1..], depth, w1)
  }

  function StartWalk(pageId: Id): Walked {
    Walked([], map[pageId := PAGE_FRAME], map[])
  }

  function WalkPage(enter: Entering, shapes: seq<Shape>, pageId: Id): Walked {
    Walk(enter, shapes, pageId, 0, StartWalk(pageId))
  }

  /* ------------------------------------------------------------- what the walk keeps */

  /** A shape with this id is in the list. */
  predicate Lists(order: seq<Shape>, id: Id)
    decreases |order|
  {
    order != [] && (order[|order| - 1].id == id || Lists(order[..|order| - 1], id))
  }

  /** A visited shape hangs off a visited parent, one level deeper, in the frame that implies. */
  ghost predicate Hangs(enter: Entering, s: Shape, w: Walked, pageId: Id) {
    && s.id in w.frame && s.id in w.depth && s.parentId in w.frame
    && w.depth[s.id] <= DEPTH_CAP
    && (if s.parentId == pageId then w.depth[s.id] == 0 else s.parentId in w.depth && w.depth[s.id] == w.depth[s.parentId] + 1)
    && w.frame[s.id] == enter(w.frame[s.parentId], s)
  }

  /** The page is the root: it has the page frame and no depth. */
  ghost predicate Rooted(w: Walked, pageId: Id) {
    pageId in w.frame && w.frame[pageId] == PAGE_FRAME && pageId !in w.depth && w.depth.Keys <= w.frame.Keys
  }

  /** Besides the page, only listed shapes have a frame. */
  ghost predicate OnlyListed(w: Walked, pageId: Id) {
    forall id :: id in w.frame ==> id == pageId || Lists(w.order, id)
  }

  /** No id is listed twice, and a parent comes before its children. */
  ghost predicate Listed(order: seq<Shape>) {
    && (forall i, j :: 0 <= i < j < |order| ==> order[i].id != order[j].id)
    && (forall i, j :: 0 <= i < |order| && 0 <= j < |order| && order[i].id == order[j].parentId ==> i < j)
  }

  ghost predicate AllHang(enter: Entering, w: Walked, shapes: seq<Shape>, pageId: Id) {
    forall s :: s in w.order ==> s in shapes && Hangs(enter, s, w, pageId)
  }

  /** Each record is listed once, after its parent, and everything recorded about it hangs together. */
  ghost predicate IsTree(enter: Entering, w: Walked, shapes: seq<Shape>, pageId: Id) {
    match w
    case Walked(order, _, _) => Rooted(w, pageId) && Listed(order) && AllHang(enter, w, shapes, pageId)
  }

  /** Nothing visited is ever revisited or changed. */
  ghost predicate Grows(w: Walked, w': Walked) {
    match w
    case Walked(order, frame, depth) =>
      && order <= w'.order
      && (forall id :: id in frame ==> id in w'.frame && w'.frame[id] == frame[id])
      && (forall id :: id in depth ==> id in w'.depth && w'.depth[id] == depth[id])
  }

  lemma GrowsTransitive(a: Walked, b: Walked, c: Walked)
    requires Grows(a, b) && Grows(b, c)
    ensures Grows(a, c)
  {
  }

  lemma {:induction false} ChildMembers(shapes: seq<Shape>, parentId: Id)
    ensures forall s :: s in Children(shapes, parentId) <==> s in shapes && s.parentId == parentId
    decreases |shapes|
  {
    if shapes != [] {
      ChildMembers(shapes[..|shapes| - 1], parentId);
      assert forall s :: s in shapes <==> s == shapes[|shapes| - 1] || s in shapes[..|shapes| - 1];
    }
  }

  ghost predicate AtDepth(w: Walked, parentId: Id, depth: nat, pageId: Id) {
    parentId in w.frame && if parentId == pageId then depth == 0 else parentId in w.depth && depth == w.depth[parentId] + 1
  }

  lemma VisitGrows(enter: Entering, w: Walked, pageId: Id, s: Shape, depth: nat)
    requires Rooted(w, pageId) && s.id !in w.frame
    ensures Rooted(Visit(enter, w, s, depth), pageId) && Grows(w, Visit(enter, w, s, depth))
  {
  }

  lemma VisitKeepsHanging(enter: Entering, w: Walked, shapes: seq<Shape>, pageId: Id, s: Shape, depth: nat)
    requires Rooted(w, pageId) && AllHang(enter, w, shapes, pageId) && s in shapes && s.id !in w.frame
    requires AtDepth(w, s.parentId, depth, pageId) && depth <= DEPTH_CAP
    ensures AllHang(enter, Visit(enter, w, s, depth), shapes, pageId)
  {
    var w' := Visit(enter, w, s, depth);
    forall x | x in w'.order
      ensures x in shapes && Hangs(enter, x, w', pageId)
    {
      if x in w.order {
        assert Hangs(enter, x, w, pageId);
      } else {
        assert x == s;
      }
    }
  }

  lemma VisitKeepsListing(enter: Entering, w: Walked, shapes: seq<Shape>, pageId: Id, s: Shape)
    requires IsTree(enter, w, shapes, pageId) && s.id !in w.frame && s.parentId in w.frame
    ensures Listed(w.order + [s])
  {
    forall x | x in w.order
      ensures x.id != s.id && x.parentId != s.id
    {
      assert Hangs(enter, x, w, pageId);
    }
  }

  lemma VisitKeepsTree(enter: Entering, w: Walked, shapes: seq<Shape>, pageId: Id, s: Shape, depth: nat)
    requires IsTree(enter, w, shapes, pageId) && s in shapes && s.id !in w.frame
    requires AtDepth(w, s.parentId, depth, pageId) && depth <= DEPTH_CAP
    ensures IsTree(enter, Visit(enter, w, s, depth), shapes, pageId) && Grows(w, Visit(enter, w, s, depth))
    ensures AtDepth(Visit(enter, w, s, depth), s.id, depth + 1, pageId)
  {
    VisitGrows(enter, w, pageId, s, depth);
    VisitKeepsHanging(enter, w, shapes, pageId, s, depth);
    VisitKeepsListing(enter, w, shapes, pageId, s);
  }

  lemma DepthIsKept(w: Walked, w': Walked, parentId: Id, depth: nat, pageId: Id)
    requires AtDepth(w, parentId, depth, pageId) && Grows(w, w')
    ensures AtDepth(w', parentId, depth, pageId)
  {
  }

  lemma {:induction false} WalkKeepsTree(enter: Entering, shapes: seq<Shape>, pageId: Id, parentId: Id, depth: nat, w: Walked)
    requires IsTree(enter, w, shapes, pageId) && depth <= DEPTH_CAP + 1 && AtDepth(w, parentId, depth, pageId)
    ensures IsTree(enter, Walk(enter, shapes, parentId, depth, w), shapes, pageId) && Grows(w, Walk(enter, shapes, parentId, depth, w))
    decreases DEPTH_CAP + 1 - depth, 1, 0
  {
    if depth <= DEPTH_CAP {
      ChildMembers(shapes, parentId);
      WalkEachKeepsTree(enter, shapes, pageId, parentId, Children(shapes, parentId), depth, w);
    }
  }

  /** The state after walking into the head of the list. */
  function Into(enter: Entering, shapes: seq<Shape>, s: Shape, depth: nat, w: Walked): Walked
    requires depth <= DEPTH_CAP
  {
    if s.id in w.frame then w else Walk(enter, shapes, s.id, depth + 1, Visit(enter, w, s, depth))
  }

  lemma {:induction false} WalkEachKeepsTree(enter: Entering, shapes: seq<Shape>, pageId: Id, parentId: Id, list: seq<Shape>, depth: nat, w: Walked)
    requires IsTree(enter, w, shapes, pageId) && depth <= DEPTH_CAP && AtDepth(w, parentId, depth, pageId)
    requires forall s :: s in list ==> s in shapes && s.parentId == parentId
    ensures IsTree(enter, WalkEach(enter, shapes, list, depth, w), shapes, pageId) && Grows(w, WalkEach(enter, shapes, list, depth, w))
    decreases DEPTH_CAP + 1 - depth, 0, |list|
  {
    if list != [] {
      assert list[0] in list;
      var w1 := Into(enter, shapes, list[0], depth, w);
      IntoKeepsTree(enter, shapes, pageId, list[0], depth, w);
      DepthIsKept(w, w1, parentId, depth, pageId);
      WalkEachKeepsTree(enter, shapes, pageId, parentId, list[1..], depth, w1);
      GrowsTransitive(w, w1, WalkEach(enter, shapes, list[1..], depth, w1));
    }
  }

  lemma {:induction false} IntoKeepsTree(enter: Entering, shapes: seq<Shape>, pageId: Id, s: Shape, depth: nat, w: Walked)
    requires IsTree(enter, w, shapes, pageId) && depth <= DEPTH_CAP && AtDepth(w, s.parentId, depth, pageId) && s in shapes
    ensures IsTree(enter, Into(enter, shapes, s, depth, w), shapes, pageId) && Grows(w, Into(enter, shapes, s, depth, w))
    decreases DEPTH_CAP + 1 - depth, 0, 0
  {
    if s.id !in w.frame {
      VisitKeepsTree(enter, w, shapes, pageId, s, depth);
      WalkKeepsTree(enter, shapes, pageId, s.id, depth + 1, Visit(enter, w, s, depth));
      GrowsTransitive(w, Visit(enter, w, s, depth), Into(enter, shapes, s, depth, w));
    }
  }

  /**
   * On any records at all, parent loops included, the walk stops and lists each visited record once, after
   * its parent, with the transform and turn composed along its chain of containers.
   */
  lemma WalkedPageIsTree(enter: Entering, shapes: seq<Shape>, pageId: Id)
    ensures IsTree(enter, WalkPage(enter, shapes, pageId), shapes, pageId)
  {
    WalkKeepsTree(enter, shapes, pageId, pageId, 0, StartWalk(pageId));
  }

  /* ----------------------------------------------------------- and what it reaches */

  /** The record with this id is `hops` containers below the page. */
  ghost predicate Reaches(shapes: seq<Shape>, pageId: Id, id: Id, hops: nat)
    decreases hops
  {
    exists s :: s in shapes && s.id == id &&
      if hops == 0 then s.parentId == pageId else s.parentId != pageId && Reaches(shapes, pageId, s.parentId, hops - 1)
  }

  ghost predicate UniqueIds(shapes: seq<Shape>, pageId: Id) {
    && (forall s :: s in shapes ==> s.id != pageId)
    && (forall s, x :: s in shapes && x in shapes && s.id == x.id ==> s == x)
  }

  /** Every child of a visited shape above the depth cap has been visited, except under the shapes listed in `open`. */
  ghost predicate ClosedBut(w: Walked, shapes: seq<Shape>, open: set<Id>) {
    forall id, c :: id in w.depth && w.depth[id] < DEPTH_CAP && id !in open && c in shapes && c.parentId == id ==> c.id in w.frame
  }

  ghost predicate ChildrenVisited(w: Walked, shapes: seq<Shape>, parentId: Id) {
    forall c :: c in shapes && c.parentId == parentId ==> c.id in w.frame
  }

  lemma {:induction false} WalkCloses(enter: Entering, shapes: seq<Shape>, pageId: Id, parentId: Id, depth: nat, w: Walked, open: set<Id>)
    requires IsTree(enter, w, shapes, pageId) && depth <= DEPTH_CAP + 1 && AtDepth(w, parentId, depth, pageId)
    requires ClosedBut(w, shapes, open + {parentId}) && open <= w.frame.Keys
    ensures ClosedBut(Walk(enter, shapes, parentId, depth, w), shapes, open)
    ensures depth <= DEPTH_CAP ==> ChildrenVisited(Walk(enter, shapes, parentId, depth, w), shapes, parentId)
    decreases DEPTH_CAP + 1 - depth, 1, 0
  {
    if depth <= DEPTH_CAP {
      ChildMembers(shapes, parentId);
      WalkEachCloses(enter, shapes, pageId, parentId, Children(shapes, parentId), depth, w, open);
    }
  }

  lemma {:induction false} WalkEachCloses(enter: Entering, shapes: seq<Shape>, pageId: Id, parentId: Id, list: seq<Shape>, depth: nat, w: Walked, open: set<Id>)
    requires IsTree(enter, w, shapes, pageId) && depth <= DEPTH_CAP && AtDepth(w, parentId, depth, pageId)
    requires forall s :: s in list ==> s in shapes && s.parentId == parentId
    requires forall c :: c in shapes && c.parentId == parentId ==> c in list || c.id in w.frame
    requires ClosedBut(w, shapes, open + {parentId}) && open <= w.frame.Keys
    ensures ClosedBut(WalkEach(enter, shapes, list, depth, w), shapes, open)
    ensures ChildrenVisited(WalkEach(enter, shapes, list, depth, w), shapes, parentId)
    decreases DEPTH_CAP + 1 - depth, 0, |list|
  {
    if list == [] {
      assert ChildrenVisited(w, shapes, parentId);
    } else {
      var s := list[0];
      assert s in list;
      var w1 := Into(enter, shapes, s, depth, w);
      IntoKeepsTree(enter, shapes, pageId, s, depth, w);
      IntoCloses(enter, shapes, pageId, s, depth, w, open + {parentId});
      DepthIsKept(w, w1, parentId, depth, pageId);
      forall c | c in shapes && c.parentId == parentId
        ensures c in list[1..] || c.id in w1.frame
      {
        assert c in list ==> c == s || c in list[1..];
      }
      WalkEachCloses(enter, shapes, pageId, parentId, list[1..], depth, w1, open);
    }
  }

  lemma {:induction false} IntoCloses(enter: Entering, shapes: seq<Shape>, pageId: Id, s: Shape, depth: nat, w: Walked, open: set<Id>)
    requires IsTree(enter, w, shapes, pageId) && depth <= DEPTH_CAP && AtDepth(w, s.parentId, depth, pageId) && s in shapes
    requires ClosedBut(w, shapes, open) && open <= w.frame.Keys
    ensures ClosedBut(Into(enter, shapes, s, depth, w), shapes, open) && s.id in Into(enter, shapes, s, depth, w).frame
    decreases DEPTH_CAP + 1 - depth, 0, 0
  {
    if s.id !in w.frame {
      var w1 := Visit(enter, w, s, depth);
      VisitKeepsTree(enter, w, shapes, pageId, s, depth);
      assert ClosedBut(w1, shapes, open + {s.id});
      WalkKeepsTree(enter, shapes, pageId, s.id, depth + 1, w1);
      WalkCloses(enter, shapes, pageId, s.id, depth + 1, w1, open);
    }
  }

  lemma {:induction false} WalkListsKeys(enter: Entering, shapes: seq<Shape>, pageId: Id, parentId: Id, depth: nat, w: Walked)
    requires OnlyListed(w, pageId) && depth <= DEPTH_CAP + 1
    ensures OnlyListed(Walk(enter, shapes, parentId, depth, w), pageId)
    decreases DEPTH_CAP + 1 - depth, 1, 0
  {
    if depth <= DEPTH_CAP {
      WalkEachListsKeys(enter, shapes, pageId, Children(shapes, parentId), depth, w);
    }
  }

  lemma {:induction false} WalkEachListsKeys(enter: Entering, shapes: seq<Shape>, pageId: Id, list: seq<Shape>, depth: nat, w: Walked)
    requires OnlyListed(w, pageId) && depth <= DEPTH_CAP
    ensures OnlyListed(WalkEach(enter, shapes, list, depth, w), pageId)
    decreases DEPTH_CAP + 1 - depth, 0, |list|
  {
    if list != [] {
      var w1 := Into(enter, shapes, list[0], depth, w);
      if list[0].id !in w.frame {
        VisitListsKeys(enter, w, pageId, list[0], depth);
        WalkListsKeys(enter, shapes, pageId, list[0].id, depth + 1, Visit(enter, w, list[0], depth));
      }
      WalkEachListsKeys(enter, shapes, pageId, list[1..], depth, w1);
    }
  }

  lemma VisitListsKeys(enter: Entering, w: Walked, pageId: Id, s: Shape, depth: nat)
    requires OnlyListed(w, pageId)
    ensures OnlyListed(Visit(enter, w, s, depth), pageId)
  {
    assert (w.order + [s])[..|w.order|] == w.order;
  }

  /** The listed shape with this id. */
  lemma {:induction false} ListedShape(order: seq<Shape>, id: Id) returns (s: Shape)
    requires Lists(order, id)
    ensures s in order && s.id == id
    decreases |order|
  {
    s := order[|order| - 1];
    if s.id != id {
      s := ListedShape(order[..|order| - 1], id);
    }
  }

  lemma {:induction false} IsListed(order: seq<Shape>, s: Shape)
    requires s in order
    ensures Lists(order, s.id)
    decreases |order|
  {
    if s != order[|order| - 1] {
      IsListed(order[..|order| - 1], s);
    }
  }

  lemma {:induction false} ReachedIsVisited(enter: Entering, shapes: seq<Shape>, pageId: Id, w: Walked, id: Id, hops: nat)
    requires UniqueIds(shapes, pageId) && Reaches(shapes, pageId, id, hops) && hops <= DEPTH_CAP
    requires IsTree(enter, w, shapes, pageId) && OnlyListed(w, pageId)
    requires ClosedBut(w, shapes, {}) && ChildrenVisited(w, shapes, pageId)
    ensures Lists(w.order, id) && id in w.depth && w.depth[id] == hops
    decreases hops
  {
    var s :| s in shapes && s.id == id &&
      if hops == 0 then s.parentId == pageId else s.parentId != pageId && Reaches(shapes, pageId, s.parentId, hops - 1);
    if hops > 0 {
      ReachedIsVisited(enter, shapes, pageId, w, s.parentId, hops - 1);
    }
    assert s.id in w.frame;
    var x := ListedShape(w.order, id);
    assert Hangs(enter, x, w, pageId) && x == s;
  }

  lemma {:induction false} VisitedIsReached(enter: Entering, shapes: seq<Shape>, pageId: Id, w: Walked, s: Shape, depth: nat)
    requires IsTree(enter, w, shapes, pageId) && OnlyListed(w, pageId)
    requires s in w.order && s.id in w.depth && w.depth[s.id] == depth
    ensures Reaches(shapes, pageId, s.id, depth)
    decreases depth
  {
    assert Hangs(enter, s, w, pageId);
    if s.parentId != pageId {
      var p := ListedShape(w.order, s.parentId);
      VisitedIsReached(enter, shapes, pageId, w, p, depth - 1);
    }
  }

  lemma WalkedPageIsComplete(enter: Entering, shapes: seq<Shape>, pageId: Id)
    ensures OnlyListed(WalkPage(enter, shapes, pageId), pageId)
    ensures ClosedBut(WalkPage(enter, shapes, pageId), shapes, {}) && ChildrenVisited(WalkPage(enter, shapes, pageId), shapes, pageId)
  {
    WalkListsKeys(enter, shapes, pageId, pageId, 0, StartWalk(pageId));
    WalkCloses(enter, shapes, pageId, pageId, 0, StartWalk(pageId), {});
  }

  /** With unique ids, the layout lists exactly the records whose chain of containers reaches the page within the cap. */
  lemma LayoutListsExactlyTheReachable(enter: Entering, shapes: seq<Shape>, pageId: Id, id: Id)
    requires UniqueIds(shapes, pageId)
    ensures Lists(WalkPage(enter, shapes, pageId).order, id) <==>
            exists hops :: 0 <= hops <= 30 && Reaches(shapes, pageId, id, hops)
  {
    var w := WalkPage(enter, shapes, pageId);
    WalkedPageIsTree(enter, shapes, pageId);
    WalkedPageIsComplete(enter, shapes, pageId);
    if Lists(w.order, id) {
      var s := ListedShape(w.order, id);
      assert Hangs(enter, s, w, pageId);
      VisitedIsReached(enter, shapes, pageId, w, s, w.depth[s.id]);
      assert 0 <= w.depth[id] <= DEPTH_CAP && Reaches(shapes, pageId, id, w.depth[id]);
    }
    if hops :| 0 <= hops <= DEPTH_CAP && Reaches(shapes, pageId, id, hops) {
      ReachedIsVisited(enter, shapes, pageId, w, id, hops);
    }
  }
}
