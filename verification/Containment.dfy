/** What is inside a shape and what it is inside of, read off a finished layout. */
module Containment {
  import opened Wrappers
  import opened LayoutTree

  /** Every shape under `parent`, however deeply nested. */
  function Descend(order: seq<Shape>, parent: Id, depth: nat): set<Id>
    requires depth <= DEPTH_CAP + 1
    decreases DEPTH_CAP + 1 - depth, 1, 0
  {
    if depth > DEPTH_CAP then {} else DescendEach(order, Children(order, parent), depth)
  }

  function DescendEach(order: seq<Shape>, list: seq<Shape>, depth: nat): set<Id>
    requires depth <= DEPTH_CAP
    decreases DEPTH_CAP + 1 - depth, 0, |list|
  {
    if list == [] then {}
    else {list[0].id} + Descend(order, list[0].id, depth + 1) + DescendEach(order, list[1..], depth)
  }

  function Find(order: seq<Shape>, id: Id): (r: Option<Shape>)
    ensures r.Some? <==> Lists(order, id)
    ensures r.Some? ==> r.value in order && r.value.id == id
    decreases |order|
  {
    if order == [] then None
    else if order[|order| - 1].id == id then Some(order[|order| - 1])
    else Find(order[..|order| - 1], id)
  }

  /** The containers of `id`, walking up at most `steps` of them and stopping below the page. */
  function Ancestors(order: seq<Shape>, pageId: Id, id: Id, steps: nat): set<Id>
    decreases steps
  {
    var current := Find(order, id);
    if steps == 0 || current.None? || current.value.parentId == pageId then {}
    else {current.value.parentId} + Ancestors(order, pageId, current.value.parentId, steps - 1)
  }

  lemma {:induction false} FoundIsUnique(order: seq<Shape>, s: Shape)
    requires Listed(order) && s in order
    ensures Find(order, s.id) == Some(s)
  {
    IsListed(order, s);
    var r := Find(order, s.id).value;
    var i :| 0 <= i < |order| && order[i] == s;
    var j :| 0 <= j < |order| && order[j] == r;
  }

  /* ------------------------------------------------------- one step of the descent */

  ghost predicate Through(order: seq<Shape>, c: Shape, x: Id, depth: nat)
    requires depth <= DEPTH_CAP
  {
    x == c.id || x in Descend(order, c.id, depth + 1)
  }

  lemma {:induction false} EachHas(order: seq<Shape>, list: seq<Shape>, depth: nat, c: Shape, x: Id)
    requires depth <= DEPTH_CAP && c in list && Through(order, c, x, depth)
    ensures x in DescendEach(order, list, depth)
    decreases |list|
  {
    if c != list[0] {
      EachHas(order, list[1..], depth, c, x);
    }
  }

  lemma {:induction false} EachComesFrom(order: seq<Shape>, list: seq<Shape>, depth: nat, x: Id) returns (c: Shape)
    requires depth <= DEPTH_CAP && x in DescendEach(order, list, depth)
    ensures c in list && Through(order, c, x, depth)
    decreases |list|
  {
    c := list[0];
    if !Through(order, c, x, depth) {
      c := EachComesFrom(order, list[1..], depth, x);
    }
  }

  lemma StepDown(order: seq<Shape>, parent: Id, depth: nat, c: Shape, x: Id)
    requires depth <= DEPTH_CAP && c in order && c.parentId == parent && Through(order, c, x, depth)
    ensures x in Descend(order, parent, depth)
  {
    ChildMembers(order, parent);
    EachHas(order, Children(order, parent), depth, c, x);
  }

  lemma FirstStep(order: seq<Shape>, parent: Id, depth: nat, x: Id) returns (c: Shape)
    requires depth <= DEPTH_CAP && x in Descend(order, parent, depth)
    ensures c in order && c.parentId == parent && Through(order, c, x, depth)
  {
    ChildMembers(order, parent);
    c := EachComesFrom(order, Children(order, parent), depth, x);
  }

  /* --------------------------------------------------- closed exactly under containment */

  ghost predicate Under(order: seq<Shape>, s: Shape, id: Id, depth: nat)
    requires depth <= DEPTH_CAP + 1
  {
    s.parentId == id || s.parentId in Descend(order, id, depth)
  }

  /** Nothing under a shape is missed: the descent's depth cap never cuts what the layout lists. */
  lemma {:induction false} DescendIsComplete(enter: Entering, shapes: seq<Shape>, pageId: Id, w: Walked, id: Id, depth: nat, s: Shape)
    requires IsTree(enter, w, shapes, pageId) && id in w.depth && depth <= w.depth[id]
    requires s in w.order && depth <= DEPTH_CAP + 1 && Under(w.order, s, id, depth)
    ensures s.id in Descend(w.order, id, depth)
    decreases DEPTH_CAP + 1 - depth
  {
    assert Hangs(enter, s, w, pageId);
    if s.parentId == id {
      assert id != pageId;
      StepDown(w.order, id, depth, s, s.id);
    } else {
      var c := FirstStep(w.order, id, depth, s.parentId);
      assert Hangs(enter, c, w, pageId);
      assert id != pageId;
      DescendIsComplete(enter, shapes, pageId, w, c.id, depth + 1, s);
      StepDown(w.order, id, depth, c, s.id);
    }
  }

  /** Everything the descent finds is listed, hangs under the shape, and lies strictly deeper. */
  lemma {:induction false} DescendIsSound(enter: Entering, shapes: seq<Shape>, pageId: Id, w: Walked, id: Id, depth: nat, x: Id) returns (s: Shape)
    requires IsTree(enter, w, shapes, pageId) && id in w.depth && depth <= DEPTH_CAP + 1 && x in Descend(w.order, id, depth)
    ensures s in w.order && s.id == x && Under(w.order, s, id, depth)
    ensures x in w.depth && w.depth[id] < w.depth[x]
    decreases DEPTH_CAP + 1 - depth
  {
    var c := FirstStep(w.order, id, depth, x);
    assert Hangs(enter, c, w, pageId);
    assert id != pageId;
    if x == c.id {
      s := c;
    } else {
      s := DescendIsSound(enter, shapes, pageId, w, c.id, depth + 1, x);
      if s.parentId == c.id {
        StepDown(w.order, id, depth, c, c.id);
      } else {
        StepDown(w.order, id, depth, c, s.parentId);
      }
    }
  }

  /** The shape and everything under it. */
  function Inward(order: seq<Shape>, id: Id): set<Id> {
    {id} + Descend(order, id, 0)
  }

  /** A set of ids holding exactly `id` and what hangs, directly or not, under it. */
  ghost predicate ClosedUnder(order: seq<Shape>, id: Id, inside: set<Id>) {
    && (forall s :: s in order ==> (s.id in inside <==> s.id == id || s.parentId in inside))
    && (forall s :: s in order && s.id == id ==> s.parentId !in inside)
  }

  lemma InwardIsClosed(enter: Entering, shapes: seq<Shape>, pageId: Id, w: Walked, s: Shape)
    requires IsTree(enter, w, shapes, pageId) && s in w.order
    ensures ClosedUnder(w.order, s.id, Inward(w.order, s.id)) && pageId !in Inward(w.order, s.id)
  {
    var id := s.id;
    assert Hangs(enter, s, w, pageId);
    forall x | x in w.order
      ensures x.id in Inward(w.order, id) <==> x.id == id || x.parentId in Inward(w.order, id)
    {
      if x.parentId in Inward(w.order, id) {
        DescendIsComplete(enter, shapes, pageId, w, id, 0, x);
      }
      if x.id in Descend(w.order, id, 0) {
        var y := DescendIsSound(enter, shapes, pageId, w, id, 0, x.id);
        FoundIsUnique(w.order, x);
        FoundIsUnique(w.order, y);
      }
    }
    forall x | x in w.order && x.id == id
      ensures x.parentId !in Inward(w.order, id)
    {
      assert Hangs(enter, x, w, pageId);
      if x.parentId in Descend(w.order, id, 0) {
        var y := DescendIsSound(enter, shapes, pageId, w, id, 0, x.parentId);
        assert false;
      }
    }
    if pageId in Descend(w.order, id, 0) {
      var y := DescendIsSound(enter, shapes, pageId, w, id, 0, pageId);
      assert false;
    }
  }

  /** What is under something inside is inside. */
  lemma {:induction false} DescendStaysInside(order: seq<Shape>, id: Id, inside: set<Id>, o: Id, depth: nat, x: Id)
    requires ClosedUnder(order, id, inside) && o in inside && depth <= DEPTH_CAP + 1 && x in Descend(order, o, depth)
    ensures x in inside
    decreases DEPTH_CAP + 1 - depth
  {
    var c := FirstStep(order, o, depth, x);
    if x != c.id {
      DescendStaysInside(order, id, inside, c.id, depth + 1, x);
    }
  }

  /** Two shapes that share something inside them are one inside the other. */
  lemma {:induction false} NestedOrApart(enter: Entering, shapes: seq<Shape>, pageId: Id, w: Walked, a: Shape, b: Shape, x: Shape, depth: nat)
    requires IsTree(enter, w, shapes, pageId) && OnlyListed(w, pageId) && a in w.order && b in w.order && x in w.order
    requires x.id in w.depth && w.depth[x.id] == depth
    requires x.id in Inward(w.order, a.id) && x.id in Inward(w.order, b.id)
    ensures a.id in Inward(w.order, b.id) || b.id in Inward(w.order, a.id)
    decreases depth
  {
    if x.id != a.id && x.id != b.id {
      InwardIsClosed(enter, shapes, pageId, w, a);
      InwardIsClosed(enter, shapes, pageId, w, b);
      assert Hangs(enter, x, w, pageId);
      var p := ListedShape(w.order, x.parentId);
      assert Hangs(enter, p, w, pageId);
      NestedOrApart(enter, shapes, pageId, w, a, b, p, depth - 1);
    }
  }

  /* ------------------------------------------------- ancestors and descendants agree */

  lemma {:induction false} AncestorHolds(enter: Entering, shapes: seq<Shape>, pageId: Id, w: Walked, a: Id, id: Id, steps: nat)
    requires IsTree(enter, w, shapes, pageId) && OnlyListed(w, pageId) && a in Ancestors(w.order, pageId, id, steps)
    ensures a in w.depth && id in Descend(w.order, a, 0)
    decreases steps
  {
    var s := Find(w.order, id).value;
    assert Hangs(enter, s, w, pageId);
    if a != s.parentId {
      AncestorHolds(enter, shapes, pageId, w, a, s.parentId, steps - 1);
    }
    DescendIsComplete(enter, shapes, pageId, w, a, 0, s);
  }

  lemma {:induction false} HolderIsAncestor(enter: Entering, shapes: seq<Shape>, pageId: Id, w: Walked, a: Id, id: Id, steps: nat)
    requires IsTree(enter, w, shapes, pageId) && OnlyListed(w, pageId)
    requires a in w.depth && id in Descend(w.order, a, 0) && id in w.depth && w.depth[id] <= steps
    ensures a in Ancestors(w.order, pageId, id, steps)
    decreases steps
  {
    var s := DescendIsSound(enter, shapes, pageId, w, a, 0, id);
    FoundIsUnique(w.order, s);
    assert Hangs(enter, s, w, pageId);
    assert a != pageId;
    if s.parentId != a {
      var p := DescendIsSound(enter, shapes, pageId, w, a, 0, s.parentId);
      assert s.parentId != pageId;
      HolderIsAncestor(enter, shapes, pageId, w, a, s.parentId, steps - 1);
    }
  }

  /**
   * In any finished layout the two containment queries are inverse: walking up at most 30 containers finds
   * exactly the shapes whose descent finds this one, so neither depth guard ever cuts a real chain.
   */
  lemma ContainmentAgrees(enter: Entering, shapes: seq<Shape>, pageId: Id, a: Id, id: Id)
    requires UniqueIds(shapes, pageId)
    requires var w := WalkPage(enter, shapes, pageId); Lists(w.order, a) && Lists(w.order, id)
    ensures var order := WalkPage(enter, shapes, pageId).order;
            a in Ancestors(order, pageId, id, DEPTH_CAP) <==> id in Descend(order, a, 0)
  {
    var w := WalkPage(enter, shapes, pageId);
    WalkedPageIsTree(enter, shapes, pageId);
    WalkedPageIsComplete(enter, shapes, pageId);
    var x := ListedShape(w.order, a);
    var y := ListedShape(w.order, id);
    assert Hangs(enter, x, w, pageId) && Hangs(enter, y, w, pageId);
    if a in Ancestors(w.order, pageId, id, DEPTH_CAP) {
      AncestorHolds(enter, shapes, pageId, w, a, id, DEPTH_CAP);
    }
    if id in Descend(w.order, a, 0) {
      HolderIsAncestor(enter, shapes, pageId, w, a, id, DEPTH_CAP);
    }
  }
}
