/** Computing a page layout step by step: sibling lists, the walk, the boxes, the arrows, then the groups innermost first. */
module LayoutBuilder {
  import opened Wrappers
  import opened Geometry
  import opened LayoutTree
  import opened LayoutBounds
  import opened Arrows
  import opened Placement

  function ListOf(children: map<Id, seq<Shape>>, id: Id): seq<Shape> {
    if id in children then children[id] else []
  }

  method GroupByParent(shapes: seq<Shape>) returns (children: map<Id, seq<Shape>>)
    ensures forall id :: ListOf(children, id) == Children(shapes, id)
  {
    children := map[];
    for i := 0 to |shapes|
      invariant forall id :: ListOf(children, id) == Children(shapes[..i], id)
    {
      var shape := shapes[i];
      assert shapes[..i + 1][..i] == shapes[..i];
      children := children[shape.parentId := ListOf(children, shape.parentId) + [shape]];
    }
    assert shapes[..|shapes|] == shapes;
  }

  method CollectBounds(list: seq<Shape>, bounds: map<Id, Rect>) returns (rects: seq<Rect>)
    ensures rects == LaidOut(list, bounds)
  {
    rects := [];
    for i := 0 to |list|
      invariant rects == LaidOut(list[..i], bounds)
    {
      assert list[..i + 1][..i] == list[..i];
      if list[i].id in bounds {
        rects := rects + [bounds[list[i].id]];
      }
    }
    assert list[..|list|] == list;
  }

  class PageLayoutBuilder {
    const shapes: seq<Shape>
    const pageId: Id
    const children: map<Id, seq<Shape>>
    var ordered: seq<Shape>
    var frames: map<Id, Frame>
    var layouts: map<Id, Rect>
    /** How deep each shape was found; the program keeps only the call depth. */
    ghost var depths: map<Id, nat>

    constructor (shapes: seq<Shape>, pageId: Id, children: map<Id, seq<Shape>>)
      requires forall id :: ListOf(children, id) == Children(shapes, id)
      ensures Ready() && Walked() == StartWalk(pageId) && layouts == map[]
      ensures this.shapes == shapes && this.pageId == pageId
    {
      this.shapes, this.pageId, this.children := shapes, pageId, children;
      ordered, frames, layouts, depths := [], map[pageId := PAGE_FRAME], map[], map[];
    }

    ghost predicate Ready() {
      forall id :: ListOf(children, id) == Children(shapes, id)
    }

    ghost function Walked(): Walked
      reads this
    {
      LayoutTree.Walked(ordered, frames, depths)
    }

    method Enter(shape: Shape, depth: nat)
      modifies this`ordered, this`frames, this`depths
      ensures Walked() == Visit(EnterShape, old(Walked()), shape, depth)
    {
      var container := if shape.parentId in frames then frames[shape.parentId] else PAGE_FRAME;
      frames := frames[shape.id := EnterShape(container, shape)];
      depths := depths[shape.id := depth];
      ordered := ordered + [shape];
    }

    method Walk(parentId: Id, depth: nat)
      requires Ready() && depth <= DEPTH_CAP + 1
      modifies this`ordered, this`frames, this`depths
      ensures Walked() == LayoutTree.Walk(EnterShape, shapes, parentId, depth, old(Walked()))
      decreases DEPTH_CAP + 1 - depth
    {
      if depth > DEPTH_CAP {
        return;
      }
      var list := ListOf(children, parentId);
      for i := 0 to |list|
        invariant WalkEach(EnterShape, shapes, list[i..], depth, Walked()) == WalkEach(EnterShape, shapes, list, depth, old(Walked()))
      {
        var shape := list[i];
        assert list[i..][0] == shape && list[i..][1..] == list[i + 1..];
        if shape.id !in frames {
          Enter(shape, depth);
          Walk(shape.id, depth + 1);
        }
      }
    }

    method BoxShapes()
      requires layouts == map[]
      modifies this`layouts
      ensures layouts == ShapeBoxes(PAGE_BOXING, Walked(), ordered)
    {
      for i := 0 to |ordered|
        invariant layouts == ShapeBoxes(PAGE_BOXING, Walked(), ordered[..i])
      {
        var shape := ordered[i];
        assert ordered[..i + 1][..i] == ordered[..i];
        if shape.kind == Box {
          layouts := layouts[shape.id := MeasureBox(if shape.id in frames then frames[shape.id] else PAGE_FRAME, shape.box)];
        }
      }
      assert ordered[..|ordered|] == ordered;
    }

    /** The last binding of each terminal to something that has a box by now. */
    method Terminals(ties: seq<Tie>) returns (start: Option<Tie>, finish: Option<Tie>)
      ensures start == TieAt(layouts.Keys, ties, Tail) && finish == TieAt(layouts.Keys, ties, Head)
    {
      start, finish := None, None;
      for i := 0 to |ties|
        invariant start == TieAt(layouts.Keys, ties[..i], Tail) && finish == TieAt(layouts.Keys, ties[..i], Head)
      {
        assert ties[..i + 1][..i] == ties[..i];
        if ties[i].toId in layouts {
          match ties[i].terminal
          case Tail => start := Some(ties[i]);
          case Head => finish := Some(ties[i]);
        }
      }
      assert ties[..|ties|] == ties;
    }

    method TerminalPoint(tie: Option<Tie>, opposite: Option<Tie>, stored: Point, storedOpposite: Point) returns (p: Point)
      requires (tie.Some? ==> tie.value.toId in layouts) && (opposite.Some? ==> opposite.value.toId in layouts)
      ensures p == EndPoint(PAGE_BOXING, layouts, tie, stored, Aim(layouts, opposite, storedOpposite))
    {
      if tie.None? {
        return stored;
      }
      var target := layouts[tie.value.toId];
      if tie.value.anchor.Some? {
        return Anchored(target, tie.value.anchor.value);
      }
      var toward := if opposite.Some? then Centre(layouts[opposite.value.toId]) else storedOpposite;
      return EdgePoint(target, toward);
    }

    method DrawArrows()
      modifies this`layouts
      ensures layouts == ArrowBoxes(PAGE_BOXING, Walked(), ordered, old(layouts))
    {
      for i := 0 to |ordered|
        invariant layouts == ArrowBoxes(PAGE_BOXING, Walked(), ordered[..i], old(layouts))
      {
        var shape := ordered[i];
        assert ordered[..i + 1][..i] == ordered[..i];
        if shape.kind.Arrow? {
          var line, own := shape.kind.line, if shape.id in frames then frames[shape.id] else PAGE_FRAME;
          var tail, head := PlacePoint(own, line.tail), PlacePoint(own, line.head);
          var start, finish := Terminals(line.ties);
          var s := TerminalPoint(start, finish, tail, head);
          var e := TerminalPoint(finish, start, head, tail);
          var bend := Abs(line.bend);
          var box := Rect(Min(s.x, e.x) - bend, Min(s.y, e.y) - bend, Abs(e.x - s.x) + bend * 2.0, Abs(e.y - s.y) + bend * 2.0);
          assert box == ArrowBox(PAGE_BOXING, layouts, layouts.Keys, own, line);
          layouts := layouts[shape.id := box];
        }
      }
      assert ordered[..|ordered|] == ordered;
    }

    method BoxGroups()
      requires Ready()
      modifies this`layouts
      ensures layouts == GroupPass(shapes, Walked(), |ordered|, old(layouts))
    {
      var n: nat := |ordered|;
      while n > 0
        invariant 0 <= n <= |ordered|
        invariant GroupPass(shapes, Walked(), n, layouts) == GroupPass(shapes, Walked(), |ordered|, old(layouts))
      {
        var group := ordered[n - 1];
        if group.kind == Group {
          var rects := CollectBounds(ListOf(children, group.id), layouts);
          var union := RectUnion(rects);
          var own := if group.id in frames then frames[group.id] else PAGE_FRAME;
          var box := match union case Some(r) => r case None => Rect(own.matrix.origin.x, own.matrix.origin.y, 0.0, 0.0);
          assert box == GroupBox(shapes, Walked(), layouts, group);
          layouts := layouts[group.id := box];
        }
        n := n - 1;
      }
    }
  }

  method Compute(shapes: seq<Shape>, pageId: Id) returns (ordered: seq<Shape>, layouts: map<Id, Rect>, frames: map<Id, Frame>)
    ensures var l := ComputeLayout(shapes, pageId);
            ordered == l.walked.order && layouts == l.bounds && frames == l.walked.frame
  {
    var children := GroupByParent(shapes);
    var builder := new PageLayoutBuilder(shapes, pageId, children);
    builder.Walk(pageId, 0);
    builder.BoxShapes();
    builder.DrawArrows();
    builder.BoxGroups();
    return builder.ordered, builder.layouts, builder.frames;
  }
}
