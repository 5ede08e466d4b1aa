/** What the walk finds after one shape has been moved: the same shapes, and exactly the frames inside carried. */
module MovedLayout {
  import opened Geometry
  import opened LayoutTree
  import opened Containment

  function Moved(s: Shape, id: Id, p: Point): Shape {
    if s.id == id then s.(x := p.x, y := p.y) else s
  }

  /** The records after the one with this id has been written back at another position. */
  function MovedAll(list: seq<Shape>, id: Id, p: Point): (r: seq<Shape>)
    ensures |r| == |list| && forall i :: 0 <= i < |list| ==> r[i] == Moved(list[i], id, p)
  {
    seq(|list|, i requires 0 <= i < |list| => Moved(list[i], id, p))
  }

  lemma {:induction false} MovedChildren(shapes: seq<Shape>, parentId: Id, id: Id, p: Point)
    ensures Children(MovedAll(shapes, id, p), parentId) == MovedAll(Children(shapes, parentId), id, p)
    decreases |shapes|
  {
    if shapes != [] {
      MovedChildren(shapes[..|shapes| - 1], parentId, id, p);
      assert MovedAll(shapes, id, p)[..|shapes| - 1] == MovedAll(shapes[..|shapes| - 1], id, p);
    }
  }

  /* ------------------------------------------------------ what carrying a frame means */

  /** How frames are entered, and what a page-space delta does to one. */
  datatype Rules = Rules(enter: Entering, carry: Frame -> Frame)

  /** Carrying a container carries what is in it. */
  ghost predicate Rigid(r: Rules) {
    forall f, s :: r.enter(r.carry(f), s) == r.carry(r.enter(f, s))
  }

  /** Writing the shape back at `p` carries its own frame. */
  ghost predicate MoveCarries(r: Rules, w: Walked, s: Shape, p: Point) {
    r.enter(FrameAt(w, s.parentId), Moved(s, s.id, p)) == r.carry(r.enter(FrameAt(w, s.parentId), s))
  }

  /* --------------------------------------------------------------------- the walk */

  /** The two walks visit the same ids in the same order and at the same depths; frames inside are carried. */
  ghost predicate WalksAlike(w: Walked, w': Walked, id: Id, p: Point, inside: set<Id>, carry: Frame -> Frame) {
    match w
    case Walked(order, frame, depth) =>
      && w'.order == MovedAll(order, id, p) && w'.depth == depth && w'.frame.Keys == frame.Keys
      && forall k :: k in frame ==> w'.frame[k] == if k in inside then carry(frame[k]) else frame[k]
  }

  /** One move of shape `s` to `p`, seen against the finished walk `final` of the original records. */
  datatype Relocation = Relocation(rules: Rules, shapes: seq<Shape>, final: Walked, s: Shape, p: Point, inside: set<Id>)

  ghost predicate Fair(m: Relocation) {
    match m
    case Relocation(rules, _, final, s, p, inside) =>
      && Rigid(rules) && MoveCarries(rules, final, s, p)
      && s in final.order && Listed(final.order) && ClosedUnder(final.order, s.id, inside)
  }

  function Relocated(m: Relocation): seq<Shape> {
    MovedAll(m.shapes, m.s.id, m.p)
  }

  ghost predicate Alike(m: Relocation, w: Walked, w': Walked) {
    WalksAlike(w, w', m.s.id, m.p, m.inside, m.rules.carry)
  }

  lemma VisitAlike(m: Relocation, w: Walked, w': Walked, s: Shape, depth: nat)
    requires Fair(m) && Alike(m, w, w') && s.parentId in w.frame
    requires Grows(Visit(m.rules.enter, w, s, depth), m.final) && s.id !in w.frame
    ensures Alike(m, Visit(m.rules.enter, w, s, depth), Visit(m.rules.enter, w', Moved(s, m.s.id, m.p), depth))
  {
    var enter := m.rules.enter;
    var s', f := Moved(s, m.s.id, m.p), FrameAt(w, s.parentId);
    assert (w.order + [s])[|w.order|] in m.final.order;
    assert s.id == m.s.id ==> s == m.s by {
      FoundIsUnique(m.final.order, s);
      FoundIsUnique(m.final.order, m.s);
    }
    assert enter(FrameAt(w', s.parentId), s') == if s.id in m.inside then m.rules.carry(enter(f, s)) else enter(f, s) by {
      if s.id == m.s.id {
        assert FrameAt(w, s.parentId) == FrameAt(m.final, s.parentId);
      }
    }
    assert MovedAll(w.order + [s], m.s.id, m.p) == MovedAll(w.order, m.s.id, m.p) + [s'];
  }

  lemma {:induction false} WalkGrows(enter: Entering, shapes: seq<Shape>, parentId: Id, depth: nat, w: Walked)
    requires depth <= DEPTH_CAP + 1 && w.depth.Keys <= w.frame.Keys
    ensures var w' := Walk(enter, shapes, parentId, depth, w); Grows(w, w') && w'.depth.Keys <= w'.frame.Keys
    decreases DEPTH_CAP + 1 - depth, 1, 0
  {
    if depth <= DEPTH_CAP {
      WalkEachGrows(enter, shapes, Children(shapes, parentId), depth, w);
    }
  }

  lemma {:induction false} WalkEachGrows(enter: Entering, shapes: seq<Shape>, list: seq<Shape>, depth: nat, w: Walked)
    requires depth <= DEPTH_CAP && w.depth.Keys <= w.frame.Keys
    ensures var w' := WalkEach(enter, shapes, list, depth, w); Grows(w, w') && w'.depth.Keys <= w'.frame.Keys
    decreases DEPTH_CAP + 1 - depth, 0, |list|
  {
    if list != [] {
      var w1 := Into(enter, shapes, list[0], depth, w);
      if list[0].id !in w.frame {
        WalkGrows(enter, shapes, list[0].id, depth + 1, Visit(enter, w, list[0], depth));
      }
      WalkEachGrows(enter, shapes, list[1..], depth, w1);
      GrowsTransitive(w, w1, WalkEach(enter, shapes, list[1..], depth, w1));
    }
  }

  lemma {:induction false} WalkAlike(m: Relocation, parentId: Id, depth: nat, w: Walked, w': Walked)
    requires Fair(m) && Alike(m, w, w') && parentId in w.frame && w.depth.Keys <= w.frame.Keys && depth <= DEPTH_CAP + 1
    requires Grows(Walk(m.rules.enter, m.shapes, parentId, depth, w), m.final)
    ensures Alike(m, Walk(m.rules.enter, m.shapes, parentId, depth, w), Walk(m.rules.enter, Relocated(m), parentId, depth, w'))
    decreases DEPTH_CAP + 1 - depth, 1, 0
  {
    if depth <= DEPTH_CAP {
      ChildMembers(m.shapes, parentId);
      MovedChildren(m.shapes, parentId, m.s.id, m.p);
      WalkEachAlike(m, parentId, Children(m.shapes, parentId), depth, w, w');
    }
  }

  lemma {:induction false} WalkEachAlike(m: Relocation, parentId: Id, list: seq<Shape>, depth: nat, w: Walked, w': Walked)
    requires Fair(m) && Alike(m, w, w') && parentId in w.frame && w.depth.Keys <= w.frame.Keys && depth <= DEPTH_CAP
    requires forall s :: s in list ==> s.parentId == parentId
    requires Grows(WalkEach(m.rules.enter, m.shapes, list, depth, w), m.final)
    ensures Alike(m, WalkEach(m.rules.enter, m.shapes, list, depth, w),
                  WalkEach(m.rules.enter, Relocated(m), MovedAll(list, m.s.id, m.p), depth, w'))
    decreases DEPTH_CAP + 1 - depth, 0, |list|
  {
    if list != [] {
      var enter, s, s' := m.rules.enter, list[0], Moved(list[0], m.s.id, m.p);
      var w1, w1' := Into(enter, m.shapes, s, depth, w), Into(enter, Relocated(m), s', depth, w');
      assert MovedAll(list, m.s.id, m.p)[1..] == MovedAll(list[1..], m.s.id, m.p);
      if s.id !in w.frame {
        IntoAlike(m, s, list[1..], depth, w, w');
      }
      WalkEachAlike(m, parentId, list[1..], depth, w1, w1');
    }
  }

  lemma IntoStaysWithin(m: Relocation, s: Shape, rest: seq<Shape>, depth: nat, w: Walked)
    requires s.parentId in w.frame && w.depth.Keys <= w.frame.Keys && depth <= DEPTH_CAP && s.id !in w.frame
    requires Grows(WalkEach(m.rules.enter, m.shapes, rest, depth, Into(m.rules.enter, m.shapes, s, depth, w)), m.final)
    ensures var v, w1 := Visit(m.rules.enter, w, s, depth), Into(m.rules.enter, m.shapes, s, depth, w);
            && Grows(v, m.final) && Grows(w1, m.final) && v.depth.Keys <= v.frame.Keys && s.id in v.frame
            && s.parentId in w1.frame && w1.depth.Keys <= w1.frame.Keys
  {
    var enter := m.rules.enter;
    var v := Visit(enter, w, s, depth);
    var w1 := Walk(enter, m.shapes, s.id, depth + 1, v);
    WalkGrows(enter, m.shapes, s.id, depth + 1, v);
    WalkEachGrows(enter, m.shapes, rest, depth, w1);
    GrowsTransitive(w1, WalkEach(enter, m.shapes, rest, depth, w1), m.final);
    GrowsTransitive(v, w1, m.final);
  }

  lemma {:induction false} IntoAlike(m: Relocation, s: Shape, rest: seq<Shape>, depth: nat, w: Walked, w': Walked)
    requires Fair(m) && Alike(m, w, w') && s.parentId in w.frame && w.depth.Keys <= w.frame.Keys && depth <= DEPTH_CAP && s.id !in w.frame
    requires Grows(WalkEach(m.rules.enter, m.shapes, rest, depth, Into(m.rules.enter, m.shapes, s, depth, w)), m.final)
    ensures var w1 := Into(m.rules.enter, m.shapes, s, depth, w);
            && Alike(m, w1, Into(m.rules.enter, Relocated(m), Moved(s, m.s.id, m.p), depth, w'))
            && s.parentId in w1.frame && w1.depth.Keys <= w1.frame.Keys
    decreases DEPTH_CAP + 1 - depth, 0, 0
  {
    var enter := m.rules.enter;
    var v := Visit(enter, w, s, depth);
    IntoStaysWithin(m, s, rest, depth, w);
    VisitAlike(m, w, w', s, depth);
    WalkAlike(m, s.id, depth + 1, v, Visit(enter, w', Moved(s, m.s.id, m.p), depth));
  }

  /** Laying the page out again after the move visits the same shapes and carries exactly the frames inside. */
  lemma PageWalksAlike(m: Relocation, pageId: Id)
    requires Fair(m) && m.final == WalkPage(m.rules.enter, m.shapes, pageId) && pageId !in m.inside
    ensures Alike(m, m.final, WalkPage(m.rules.enter, Relocated(m), pageId))
  {
    assert MovedAll([], m.s.id, m.p) == [];
    WalkAlike(m, pageId, 0, StartWalk(pageId), StartWalk(pageId));
  }
}
