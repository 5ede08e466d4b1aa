/**
 * What is around the shapes that are moved, and where an arrangement of them stands, in terms of the page: what is in their
 * way, what they start from, and how the members line up.
 */
module Surroundings {
  import opened Wrappers
  import opened Geometry
  import opened Arrange
  import opened LayoutTree
  import opened Containment
  import opened Placement
  import opened Certification
  import opened LayoutActions
  import opened Arrangements

  /* ------------------------------------------------------------------- what is in the way */

  /** Following the containers of the shape outwards, this many and one more, leads to the other. */
  ghost predicate LiesWithin(order: seq<Shape>, pageId: Id, id: Id, outer: Id, hops: nat)
    decreases hops
  {
    exists s :: s in order && s.id == id && s.parentId != pageId &&
      if hops == 0 then s.parentId == outer else LiesWithin(order, pageId, s.parentId, outer, hops - 1)
  }

  ghost predicate IsIn(order: seq<Shape>, pageId: Id, id: Id, outer: Id) {
    exists hops: nat :: LiesWithin(order, pageId, id, outer, hops)
  }

  lemma {:induction false} AncestorIsOutside(shapes: seq<Shape>, pageId: Id, w: Walked, s: Shape, outer: Id, steps: nat) returns (hops: nat)
    requires IsTree(EnterShape, w, shapes, pageId) && OnlyListed(w, pageId) && s in w.order && outer in Ancestors(w.order, pageId, s.id, steps)
    ensures LiesWithin(w.order, pageId, s.id, outer, hops)
    decreases steps
  {
    FoundIsUnique(w.order, s);
    hops := 0;
    if s.parentId != outer {
      assert Hangs(EnterShape, s, w, pageId);
      var p := ListedShape(w.order, s.parentId);
      var more := AncestorIsOutside(shapes, pageId, w, p, outer, steps - 1);
      hops := more + 1;
    }
  }

  lemma {:induction false} OutsideIsAncestor(shapes: seq<Shape>, pageId: Id, w: Walked, s: Shape, outer: Id, steps: nat, hops: nat)
    requires IsTree(EnterShape, w, shapes, pageId) && OnlyListed(w, pageId) && s in w.order
    requires s.id in w.depth && w.depth[s.id] <= steps && LiesWithin(w.order, pageId, s.id, outer, hops)
    ensures outer in Ancestors(w.order, pageId, s.id, steps)
    decreases hops
  {
    FoundIsUnique(w.order, s);
    var x :| x in w.order && x.id == s.id && x.parentId != pageId &&
      if hops == 0 then x.parentId == outer else LiesWithin(w.order, pageId, x.parentId, outer, hops - 1);
    FoundIsUnique(w.order, x);
    assert Hangs(EnterShape, s, w, pageId);
    if hops > 0 {
      var p := ListedShape(w.order, s.parentId);
      OutsideIsAncestor(shapes, pageId, w, p, outer, steps - 1, hops - 1);
    }
  }

  lemma AncestorsAreOutside(shapes: seq<Shape>, pageId: Id, s: Shape, outer: Id)
    requires UniqueIds(shapes, pageId) && s in ComputeLayout(shapes, pageId).walked.order
    ensures var order := ComputeLayout(shapes, pageId).walked.order;
            outer in Ancestors(order, pageId, s.id, DEPTH_CAP) <==> IsIn(order, pageId, s.id, outer)
  {
    var w := ComputeLayout(shapes, pageId).walked;
    WalkedPageIsTree(EnterShape, shapes, pageId);
    WalkedPageIsComplete(EnterShape, shapes, pageId);
    assert Hangs(EnterShape, s, w, pageId);
    if outer in Ancestors(w.order, pageId, s.id, DEPTH_CAP) {
      var hops := AncestorIsOutside(shapes, pageId, w, s, outer, DEPTH_CAP);
    }
    if hops: nat :| LiesWithin(w.order, pageId, s.id, outer, hops) {
      OutsideIsAncestor(shapes, pageId, w, s, outer, DEPTH_CAP, hops);
    }
  }

  /** Neither a shape that is moved nor inside one nor around one. */
  ghost predicate Unrelated(order: seq<Shape>, pageId: Id, moving: seq<Id>, id: Id) {
    forall m :: m in moving ==> id != m && !IsIn(order, pageId, id, m) && !IsIn(order, pageId, m, id)
  }

  lemma {:induction false} KinMembers(l: Layout, pageId: Id, moving: seq<Id>, id: Id)
    ensures id in KinOf(l, pageId, moving) <==> exists m :: m in moving && id in Kin(l, pageId, m)
    decreases |moving|
  {
    if moving != [] {
      var front, last := moving[..|moving| - 1], moving[|moving| - 1];
      KinMembers(l, pageId, front, id);
      assert forall m :: m in moving <==> m in front || m == last;
    }
  }

  lemma KinIsRelated(shapes: seq<Shape>, pageId: Id, m: Shape, s: Shape)
    requires UniqueIds(shapes, pageId)
    requires var order := ComputeLayout(shapes, pageId).walked.order; m in order && s in order
    ensures var l := ComputeLayout(shapes, pageId);
            s.id in Kin(l, pageId, m.id) <==> s.id == m.id || IsIn(l.walked.order, pageId, s.id, m.id) || IsIn(l.walked.order, pageId, m.id, s.id)
  {
    var order := ComputeLayout(shapes, pageId).walked.order;
    IsListed(order, m);
    IsListed(order, s);
    ContainmentAgrees(EnterShape, shapes, pageId, m.id, s.id);
    AncestorsAreOutside(shapes, pageId, s, m.id);
    AncestorsAreOutside(shapes, pageId, m, s.id);
  }

  lemma NotKinIsUnrelated(shapes: seq<Shape>, pageId: Id, moving: seq<Id>, s: Shape)
    requires UniqueIds(shapes, pageId)
    requires var order := ComputeLayout(shapes, pageId).walked.order; s in order && forall m :: m in moving ==> Lists(order, m)
    ensures var l := ComputeLayout(shapes, pageId);
            s.id !in KinOf(l, pageId, moving) <==> Unrelated(l.walked.order, pageId, moving, s.id)
  {
    var l := ComputeLayout(shapes, pageId);
    KinMembers(l, pageId, moving, s.id);
    forall m | m in moving
      ensures s.id in Kin(l, pageId, m) <==> s.id == m || IsIn(l.walked.order, pageId, s.id, m) || IsIn(l.walked.order, pageId, m, s.id)
    {
      var x := ListedShape(l.walked.order, m);
      KinIsRelated(shapes, pageId, x, s);
    }
  }

  /** In the way are the boxes of exactly the shapes that are no group and no arrow, and unrelated to what is moved. */
  lemma BlockersAreUnrelated(shapes: seq<Shape>, pageId: Id, moving: seq<Id>, r: Rect)
    requires UniqueIds(shapes, pageId)
    requires forall m :: m in moving ==> Lists(ComputeLayout(shapes, pageId).walked.order, m)
    ensures var l := ComputeLayout(shapes, pageId);
            r in Blockers(l, pageId, moving) <==>
            exists s :: s in l.walked.order && s.kind == Box && s.id in l.bounds && l.bounds[s.id] == r && Unrelated(l.walked.order, pageId, moving, s.id)
  {
    var l := ComputeLayout(shapes, pageId);
    var order, skip := l.walked.order, KinOf(l, pageId, moving);
    forall s | s in order
      ensures s.id !in skip <==> Unrelated(order, pageId, moving, s.id)
    {
      NotKinIsUnrelated(shapes, pageId, moving, s);
    }
    if r in Blockers(l, pageId, moving) {
      var s := BlockingIsListed(order, l.bounds, skip, r);
    }
    if s :| s in order && s.kind == Box && s.id in l.bounds && l.bounds[s.id] == r && Unrelated(order, pageId, moving, s.id) {
      BlockingMember(order, l.bounds, skip, s);
    }
  }

  /* ----------------------------------------------------------------------- the anchor */

  /** A shape directly on the page that is no arrow. */
  ghost predicate Stands(l: Layout, pageId: Id, s: Shape) {
    s in l.walked.order && !s.kind.Arrow? && s.parentId == pageId && s.id in l.bounds
  }

  ghost function Standing(l: Layout, pageId: Id): set<Rect> {
    set s | s in l.walked.order && Stands(l, pageId, s) :: l.bounds[s.id]
  }

  lemma {:induction false} OnThePageStands(order: seq<Shape>, b: map<Id, Rect>, pageId: Id, r: Rect) returns (s: Shape)
    requires r in OnThePage(order, b, pageId)
    ensures s in order && !s.kind.Arrow? && s.parentId == pageId && s.id in b && b[s.id] == r
    decreases |order|
  {
    var last := order[|order| - 1];
    if r in OnThePage(order[..|order| - 1], b, pageId) {
      s := OnThePageStands(order[..|order| - 1], b, pageId, r);
    } else {
      s := last;
    }
  }

  /** At the leftmost of the left edges, the gap below the lowest of the lower edges. */
  ghost predicate JustBelow(rects: set<Rect>, gap: real, p: Point) {
    && (forall r :: r in rects ==> p.x <= r.x && r.y + r.h + gap <= p.y)
    && (exists r :: r in rects && p.x == r.x) && (exists r :: r in rects && p.y == r.y + r.h + gap)
  }

  /** Every side of the union is a side of one of the rectangles. */
  lemma {:induction false} UnionTouches(rects: seq<Rect>) returns (left: nat, top: nat, bottom: nat)
    requires rects != []
    ensures left < |rects| && top < |rects| && bottom < |rects|
    ensures rects[left].x == Union(rects).x && rects[top].y == Union(rects).y && Bottom(rects[bottom]) == Bottom(Union(rects))
    decreases |rects|
  {
    var n := |rects| - 1;
    left, top, bottom := n, n, n;
    if n > 0 {
      var l, t, b := UnionTouches(rects[..n]);
      if Union(rects).x != rects[n].x {
        left := l;
      }
      if Union(rects).y != rects[n].y {
        top := t;
      }
      if Bottom(Union(rects)) != Bottom(rects[n]) {
        bottom := b;
      }
    }
  }

  lemma UnionIsJustAbove(rects: seq<Rect>, gap: real)
    requires rects != []
    ensures JustBelow((set r | r in rects), gap, Point(Union(rects).x, Bottom(Union(rects)) + gap))
  {
    UnionIsLeastBox(rects);
    var left, top, bottom := UnionTouches(rects);
    assert rects[left] in rects && rects[bottom] in rects;
  }

  /** Unless it is asked for, the anchor is just below what stands on the page, and its origin if nothing does. */
  lemma AnchorIsJustBelow(l: Layout, pageId: Id, asked: Option<Point>, gap: real)
    ensures var p := Anchor(l, pageId, asked, gap);
            match asked
            case Some(q) => p == q
            case None =>
              if exists s :: Stands(l, pageId, s) then JustBelow(Standing(l, pageId), gap, p)
              else p == Point(0.0, 0.0)
  {
    var rects, boxes := OnThePage(l.walked.order, l.bounds, pageId), Standing(l, pageId);
    forall s | Stands(l, pageId, s)
      ensures l.bounds[s.id] in rects
    {
      OnThePageMembers(l.walked.order, l.bounds, pageId, s);
    }
    forall r | r in rects
      ensures r in boxes && exists s :: Stands(l, pageId, s)
    {
      var s := OnThePageStands(l.walked.order, l.bounds, pageId, r);
      assert Stands(l, pageId, s);
    }
    assert boxes == set r | r in rects;
    if rects != [] {
      assert rects[0] in rects;
      UnionIsJustAbove(rects, gap);
    }
  }

  /* ------------------------------------------------------------------- how members stand */

  ghost predicate IsGreatest(sizes: seq<real>, greatest: real) {
    (forall i :: 0 <= i < |sizes| ==> sizes[i] <= greatest) && exists i :: 0 <= i < |sizes| && sizes[i] == greatest
  }

  lemma {:induction false} TallestIsGreatest(items: seq<Item>)
    requires items != []
    ensures IsGreatest(Heights(items), MaxHeight(items))
    decreases |items|
  {
    var n := |items| - 1;
    if n == 0 {
      assert Heights(items)[0] == MaxHeight(items);
    } else {
      TallestIsGreatest(items[..n]);
      assert forall i :: 0 <= i < n ==> Heights(items[..n])[i] == Heights(items)[i];
      if MaxHeight(items) == MaxHeight(items[..n]) {
        var i :| 0 <= i < n && Heights(items[..n])[i] == MaxHeight(items[..n]);
        assert Heights(items)[i] == MaxHeight(items);
      } else {
        assert Heights(items)[n] == MaxHeight(items);
      }
    }
  }

  lemma {:induction false} WidestIsGreatest(items: seq<Item>)
    requires items != []
    ensures IsGreatest(Widths(items), MaxWidth(items))
    decreases |items|
  {
    var n := |items| - 1;
    if n == 0 {
      assert Widths(items)[0] == MaxWidth(items);
    } else {
      WidestIsGreatest(items[..n]);
      assert forall i :: 0 <= i < n ==> Widths(items[..n])[i] == Widths(items)[i];
      if MaxWidth(items) == MaxWidth(items[..n]) {
        var i :| 0 <= i < n && Widths(items[..n])[i] == MaxWidth(items[..n]);
        assert Widths(items)[i] == MaxWidth(items);
      } else {
        assert Widths(items)[n] == MaxWidth(items);
      }
    }
  }

  /** At the upper edge, in the middle or at the lower edge of a band of this height. */
  ghost predicate InBand(r: Rect, top: real, height: real, align: Align) {
    match align
    case Start => r.y == top
    case Center => r.y + r.h / 2.0 == top + height / 2.0
    case End => r.y + r.h == top + height
  }

  ghost predicate InStrip(r: Rect, left: real, width: real, align: Align) {
    match align
    case Start => r.x == left
    case Center => r.x + r.w / 2.0 == left + width / 2.0
    case End => r.x + r.w == left + width
  }

  /** A row stands in the band that is as high as its tallest member, from the start on and each the gap after the last. */
  lemma RowStands(planned: seq<Rect>, items: seq<Item>, start: Point, align: Align, gap: real) returns (height: real)
    requires RowFrom(planned, items, start, align, gap)
    ensures |planned| == |items| && IsGreatest(Heights(items), height)
    ensures forall i :: 0 <= i < |items| ==>
              planned[i].w == items[i].bounds.w && planned[i].h == items[i].bounds.h && InBand(planned[i], start.y, height, align)
    ensures planned[0].x == start.x && forall i :: 0 <= i < |items| - 1 ==> planned[i + 1].x == planned[i].x + planned[i].w + gap
  {
    height := MaxHeight(items);
    TallestIsGreatest(items);
  }

  lemma StackStands(planned: seq<Rect>, items: seq<Item>, start: Point, align: Align, gap: real) returns (width: real)
    requires StackFrom(planned, items, start, align, gap)
    ensures |planned| == |items| && IsGreatest(Widths(items), width)
    ensures forall i :: 0 <= i < |items| ==>
              planned[i].w == items[i].bounds.w && planned[i].h == items[i].bounds.h && InStrip(planned[i], start.x, width, align)
    ensures planned[0].y == start.y && forall i :: 0 <= i < |items| - 1 ==> planned[i + 1].y == planned[i].y + planned[i].h + gap
  {
    width := MaxWidth(items);
    WidestIsGreatest(items);
  }

  /** The largest of the members in the track, and nothing if none of them is larger than that. */
  ghost predicate Track(extents: seq<real>, track: nat -> nat, k: nat, size: real) {
    && size >= 0.0 && (forall i :: 0 <= i < |extents| && track(i) == k ==> extents[i] <= size)
    && (size > 0.0 ==> exists i :: 0 <= i < |extents| && track(i) == k && extents[i] == size)
  }

  lemma TracksAreExact(extents: seq<real>, track: nat -> nat, sizes: seq<real>, k: nat)
    requires Measures(extents, |extents|, track, sizes) && k < |sizes|
    ensures Track(extents, track, k, sizes[k])
  {
  }

  /** The next track begins one gap after the end of this one. */
  ghost predicate Follows(planned: seq<Rect>, columns: nat, columnGap: real, rowGap: real, widths: seq<real>, heights: seq<real>, i: nat, j: nat)
    requires columns > 0 && i < |planned| && j < |planned|
  {
    && (j % columns == i % columns + 1 ==> i % columns < |widths| && planned[j].x == planned[i].x + widths[i % columns] + columnGap)
    && (j / columns == i / columns + 1 ==> i / columns < |heights| && planned[j].y == planned[i].y + heights[i / columns] + rowGap)
  }

  lemma NextTrack(extents: seq<real>, start: real, gap: real, k: nat, m: nat, at: real, next: real)
    requires m == k + 1 && m <= |extents| && at == TrackStart(extents, start, gap, k) && next == TrackStart(extents, start, gap, m)
    ensures k < |extents| && next == at + extents[k] + gap
  {
  }

  lemma CellsFollow(planned: seq<Rect>, items: seq<Item>, columns: nat, start: Point, columnGap: real, rowGap: real, widths: seq<real>, heights: seq<real>,
                    i: nat, j: nat)
    requires columns > 0 && GridFrom(planned, items, columns, start, columnGap, rowGap, widths, heights) && i < |items| && j < |items|
    ensures Follows(planned, columns, columnGap, rowGap, widths, heights, i, j)
  {
    var c, d, p, q := i % columns, j % columns, i / columns, j / columns;
    assert c == ColumnIn(columns)(i) && d == ColumnIn(columns)(j) && p == RowIn(columns)(i) && q == RowIn(columns)(j);
    if d == c + 1 {
      NextTrack(widths, start.x, columnGap, c, d, planned[i].x, planned[j].x);
    }
    if q == p + 1 {
      NextTrack(heights, start.y, rowGap, p, q, planned[i].y, planned[j].y);
    }
  }

  lemma FirstCells(planned: seq<Rect>, items: seq<Item>, columns: nat, start: Point, columnGap: real, rowGap: real, widths: seq<real>, heights: seq<real>,
                   i: nat)
    requires columns > 0 && GridFrom(planned, items, columns, start, columnGap, rowGap, widths, heights) && i < |items|
    ensures (i % columns == 0 ==> planned[i].x == start.x) && (i / columns == 0 ==> planned[i].y == start.y)
  {
    assert i % columns == ColumnIn(columns)(i) && i / columns == RowIn(columns)(i);
  }

  /** Every column and every row is as large as its largest member. */
  ghost predicate Tracked(items: seq<Item>, columns: nat, widths: seq<real>, heights: seq<real>)
    requires columns > 0
  {
    && (forall k :: 0 <= k < |widths| ==> Track(Widths(items), ColumnIn(columns), k, widths[k]))
    && (forall k :: 0 <= k < |heights| ==> Track(Heights(items), RowIn(columns), k, heights[k]))
  }

  /**
   * A grid stands from the start on, member i in column i % columns and row i / columns, and each column and row begins
   * one gap after the end of the one before, which is as large as its largest member.
   */
  lemma GridStands(planned: seq<Rect>, items: seq<Item>, columns: nat, start: Point, columnGap: real, rowGap: real, widths: seq<real>, heights: seq<real>)
    requires columns > 0 && GridFrom(planned, items, columns, start, columnGap, rowGap, widths, heights)
    ensures |planned| == |items| && Tracked(items, columns, widths, heights)
    ensures forall i :: 0 <= i < |items| ==> (i % columns == 0 ==> planned[i].x == start.x) && (i / columns == 0 ==> planned[i].y == start.y)
    ensures forall i, j :: 0 <= i < |items| && 0 <= j < |items| ==> Follows(planned, columns, columnGap, rowGap, widths, heights, i, j)
  {
    forall k | 0 <= k < |widths|
      ensures Track(Widths(items), ColumnIn(columns), k, widths[k])
    {
      TracksAreExact(Widths(items), ColumnIn(columns), widths, k);
    }
    forall k | 0 <= k < |heights|
      ensures Track(Heights(items), RowIn(columns), k, heights[k])
    {
      TracksAreExact(Heights(items), RowIn(columns), heights, k);
    }
    forall i | 0 <= i < |items|
      ensures (i % columns == 0 ==> planned[i].x == start.x) && (i / columns == 0 ==> planned[i].y == start.y)
    {
      FirstCells(planned, items, columns, start, columnGap, rowGap, widths, heights, i);
    }
    forall i, j | 0 <= i < |items| && 0 <= j < |items|
      ensures Follows(planned, columns, columnGap, rowGap, widths, heights, i, j)
    {
      CellsFollow(planned, items, columns, start, columnGap, rowGap, widths, heights, i, j);
    }
  }

  ghost function Lefts(items: seq<Item>): seq<real> {
    seq(|items|, i requires 0 <= i < |items| => items[i].bounds.x)
  }

  ghost function Tops(items: seq<Item>): seq<real> {
    seq(|items|, i requires 0 <= i < |items| => items[i].bounds.y)
  }

  ghost predicate LeastOf(edges: seq<real>, least: real) {
    (forall i :: 0 <= i < |edges| ==> least <= edges[i]) && exists i :: 0 <= i < |edges| && edges[i] == least
  }

  /** An arrangement starts where asked, and otherwise at the left and upper edges of the least box around its members. */
  lemma OriginIsCorner(items: seq<Item>, x: Option<real>, y: Option<real>)
    requires items != []
    ensures match x
            case Some(v) => Origin(items, x, y).x == v
            case None => LeastOf(Lefts(items), Origin(items, x, y).x)
    ensures match y
            case Some(v) => Origin(items, x, y).y == v
            case None => LeastOf(Tops(items), Origin(items, x, y).y)
  {
    var rects := seq(|items|, i requires 0 <= i < |items| => items[i].bounds);
    UnionIsLeastBox(rects);
    assert forall i :: 0 <= i < |items| ==> rects[i] in rects && rects[i] == items[i].bounds;
    var left, top, bottom := UnionTouches(rects);
    assert Lefts(items)[left] == Union(rects).x && Tops(items)[top] == Union(rects).y;
  }
}
