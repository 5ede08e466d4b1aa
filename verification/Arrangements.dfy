/** Rows, stacks and grids from plan to verdict: planned on the layout, written, laid out again and verified. */
module Arrangements {
  import opened Wrappers
  import opened Geometry
  import opened Sliding
  import opened Arrange
  import opened LayoutTree
  import opened Containment
  import opened Placement
  import opened Certification
  import opened Spacing
  import opened LayoutActions
  import opened BatchMoves

  /* ------------------------------------------------------- what the blockers leave out */

  /** Where a box ends up when this move is made: carried if it is the moved shape or under it. */
  function Ends(l: Layout, m: Move, k: Id): Rect
    requires k in l.bounds
  {
    if k in Inward(l.walked.order, m.id) then Shift(l.bounds[k], Made(m.dx, m.dy).x, Made(m.dx, m.dy).y) else l.bounds[k]
  }

  /** The member moved by `m` lands on a box that is inside or around the member moved by `n`, but not its own kin. */
  ghost predicate LandsOnKin(l: Layout, pageId: Id, m: Move, n: Move, a: Shape, o: Shape) {
    && a.id == m.id && a.kind == Box && o.kind == Box && a.id in l.bounds && o.id in l.bounds
    && o.id != n.id && o.id in Kin(l, pageId, n.id) && o.id !in Kin(l, pageId, m.id)
    && OverlapArea(Ends(l, m, a.id), Ends(l, n, o.id)) > 1.0
  }

  /** Known before anything is written: no member lands on what is inside or around another. */
  ghost predicate KeepOut(l: Layout, pageId: Id, moves: seq<Move>) {
    forall i, j, a, o :: 0 <= i < |moves| && 0 <= j < |moves| && i != j && a in l.walked.order && o in l.walked.order ==>
      !LandsOnKin(l, pageId, moves[i], moves[j], a, o)
  }

  lemma Counterpart(order: seq<Shape>, order': seq<Shape>, s: Shape) returns (s': Shape)
    requires SameRecords(order, order') && s in order
    ensures s' in order' && SameRecord(s, s')
  {
    var i :| 0 <= i < |order| && order[i] == s;
    s' := order'[i];
  }

  lemma Original(order: seq<Shape>, order': seq<Shape>, s': Shape) returns (s: Shape)
    requires SameRecords(order, order') && s' in order'
    ensures s in order && SameRecord(s, s')
  {
    var i :| 0 <= i < |order'| && order'[i] == s';
    s := order[i];
  }

  lemma KinStays(l: Layout, after: Layout, pageId: Id, id: Id)
    requires SameRecords(l.walked.order, after.walked.order)
    ensures Kin(after, pageId, id) == Kin(l, pageId, id)
  {
    SameDescend(l.walked.order, after.walked.order, id, 0);
    SameAncestors(l.walked.order, after.walked.order, pageId, id, DEPTH_CAP);
  }

  /** A box around one member is under no other, so no move touches it. */
  lemma ContainerStands(shapes: seq<Shape>, pageId: Id, moves: seq<Move>, j: nat, o: Shape)
    requires UniqueIds(shapes, pageId) && Independent(ComputeLayout(shapes, pageId), moves) && j < |moves|
    requires var l := ComputeLayout(shapes, pageId);
             && o in l.walked.order
             && o.id in Ancestors(l.walked.order, pageId, moves[j].id, DEPTH_CAP) && o.id !in Inward(l.walked.order, moves[j].id)
    ensures Mover(ComputeLayout(shapes, pageId).walked.order, moves, o.id) == 0
  {
    var l := ComputeLayout(shapes, pageId);
    WalkedPageIsTree(EnterShape, shapes, pageId);
    WalkedPageIsComplete(EnterShape, shapes, pageId);
    AncestorHolds(EnterShape, shapes, pageId, l.walked, o.id, moves[j].id, DEPTH_CAP);
    var n := Mover(l.walked.order, moves, o.id);
    MoverMeans(l.walked.order, moves, o.id);
    if n != 0 {
      InsideTheInside(shapes, pageId, l.walked, moves[n - 1].id, o.id, moves[j].id);
      assert false;
    }
  }

  /** What is under something under a listed shape is under that shape. */
  lemma InsideTheInside(shapes: seq<Shape>, pageId: Id, w: Walked, root: Id, o: Id, x: Id)
    requires IsTree(EnterShape, w, shapes, pageId) && Lists(w.order, root) && o in Inward(w.order, root) && x in Descend(w.order, o, 0)
    ensures x in Inward(w.order, root)
  {
    var s := ListedShape(w.order, root);
    InwardIsClosed(EnterShape, shapes, pageId, w, s);
    DescendStaysInside(w.order, root, Inward(w.order, root), o, 0, x);
  }

  lemma KinEnds(shapes: seq<Shape>, pageId: Id, after: Layout, moves: seq<Move>, j: nat, o: Shape)
    requires UniqueIds(shapes, pageId) && Independent(ComputeLayout(shapes, pageId), moves) && j < |moves|
    requires AllMade(ComputeLayout(shapes, pageId), after, moves)
    requires var l := ComputeLayout(shapes, pageId);
             o in l.walked.order && o.kind == Box && o.id in l.bounds && o.id in Kin(l, pageId, moves[j].id)
    ensures o.id in after.bounds && after.bounds[o.id] == Ends(ComputeLayout(shapes, pageId), moves[j], o.id)
  {
    var l := ComputeLayout(shapes, pageId);
    ListedHaveFrames(shapes, pageId);
    BoxLands(l, after, moves, o);
    if o.id in Inward(l.walked.order, moves[j].id) {
      MoverIs(shapes, pageId, moves, j, o.id);
    } else {
      ContainerStands(shapes, pageId, moves, j, o);
      ShiftedNowhere(l.bounds[o.id]);
    }
  }

  lemma {:induction false} OutsideAllKin(l: Layout, pageId: Id, moves: seq<Move>, k: Id)
    requires forall i :: 0 <= i < |moves| ==> k !in Kin(l, pageId, moves[i].id)
    ensures k !in KinOf(l, pageId, IdsOf(moves))
    decreases |moves|
  {
    if moves != [] {
      OutsideAllKin(l, pageId, moves[..|moves| - 1], k);
      assert IdsOf(moves)[..|IdsOf(moves)| - 1] == IdsOf(moves[..|moves| - 1]);
    }
  }

  lemma {:induction false} IdsAre(moves: seq<Move>)
    ensures |IdsOf(moves)| == |moves| && forall i :: 0 <= i < |moves| ==> IdsOf(moves)[i] == moves[i].id
    decreases |moves|
  {
    if moves != [] {
      IdsAre(moves[..|moves| - 1]);
    }
  }

  /* --------------------------------------------------------------------- the verdict */

  /** Planned on the layout: every two members the gap apart, and every member clear of the blockers by it. */
  ghost predicate WellPlanned(l: Layout, pageId: Id, items: seq<Item>, moves: seq<Move>, gap: real) {
    && ItemsOf(l, items, moves)
    && (forall i, j :: 0 <= i < |items| && 0 <= j < |items| && i != j ==> GapBetween(After(items[i], moves[i]), After(items[j], moves[j])) >= gap)
    && (forall i :: 0 <= i < |items| ==> Clear(Blockers(l, pageId, IdsOf(moves)), After(items[i], moves[i]), gap))
  }

  /** Any two rigid members stand apart. */
  ghost predicate RigidSpaced(l: Layout, after: Layout, moves: seq<Move>, gap: real) {
    forall i, j :: 0 <= i < |moves| && 0 <= j < |moves| && i != j && Rigid(l, moves, i) && Rigid(l, moves, j) ==>
      Spaced(after, moves[i].id, moves[j].id, gap)
  }

  /** Found in the recomputed layout, in the terms of the one before: all that the verdict rests on. */
  ghost predicate AsPlanned(shapes: seq<Shape>, pageId: Id, after: Layout, moves: seq<Move>, gap: real) {
    match after
    case Layout(walked, bounds) =>
      var l := ComputeLayout(shapes, pageId);
      && AllMade(l, after, moves) && Independent(l, moves)
      && (forall s :: s in walked.order ==> s.id in bounds)
      && RigidSpaced(l, after, moves, gap)
      && (forall i :: 0 <= i < |moves| && Rigid(l, moves, i) ==> StandsClear(after, moves[i].id, Blockers(after, pageId, IdsOf(moves)), gap))
  }

  lemma PlanIsWritten(shapes: seq<Shape>, pageId: Id, items: seq<Item>, moves: seq<Move>, gap: real)
    requires UniqueIds(shapes, pageId) && UnitTurns(shapes) && Independent(ComputeLayout(shapes, pageId), moves) && gap >= SPACING_TOLERANCE
    requires WellPlanned(ComputeLayout(shapes, pageId), pageId, items, moves, gap)
    ensures AsPlanned(shapes, pageId, ComputeLayout(ApplyMoves(shapes, ComputeLayout(shapes, pageId), moves), pageId), moves, gap)
  {
    var l := ComputeLayout(shapes, pageId);
    var after := ComputeLayout(ApplyMoves(shapes, l, moves), pageId);
    ArrangementIsRealised(shapes, pageId, items, moves, gap);
    MovesAreRealised(shapes, pageId, moves);
    LayoutIsSettled(ApplyMoves(shapes, l, moves), pageId);
    forall i, j | 0 <= i < |moves| && 0 <= j < |moves| && i != j && Rigid(l, moves, i) && Rigid(l, moves, j)
      ensures Spaced(after, moves[i].id, moves[j].id, gap)
    {
      assert items[i].id == moves[i].id && items[j].id == moves[j].id && PlannedApart(l, items, moves, i, j, gap);
    }
    forall i | 0 <= i < |moves| && Rigid(l, moves, i)
      ensures StandsClear(after, moves[i].id, Blockers(after, pageId, IdsOf(moves)), gap)
    {
      assert items[i].id == moves[i].id;
    }
  }

  /** One pair the verifier looks at, after the write: it overlaps only if the member lands on another's kin. */
  lemma PairVerdict(shapes: seq<Shape>, pageId: Id, after: Layout, moves: seq<Move>, gap: real, i: nat, a': Shape, o': Shape)
    requires UniqueIds(shapes, pageId) && AsPlanned(shapes, pageId, after, moves, gap) && KeepOut(ComputeLayout(shapes, pageId), pageId, moves)
    requires i < |moves| && a' in after.walked.order && o' in after.walked.order && a'.id == moves[i].id
    ensures !Overlaps(after, pageId, a', o')
  {
    var l := ComputeLayout(shapes, pageId);
    if Compares(after, pageId, a', o') {
      var a := Original(l.walked.order, after.walked.order, a');
      var o := Original(l.walked.order, after.walked.order, o');
      KinStays(l, after, pageId, a.id);
      BoxIsRigid(shapes, pageId, moves, i, a);
      if j :| 0 <= j < |moves| && o.id == moves[j].id {
        BoxIsRigid(shapes, pageId, moves, j, o);
        assert Spaced(after, moves[i].id, moves[j].id, gap);
      } else if j :| 0 <= j < |moves| && o.id in Kin(l, pageId, moves[j].id) {
        KinEnds(shapes, pageId, after, moves, i, a);
        KinEnds(shapes, pageId, after, moves, j, o);
        assert !LandsOnKin(l, pageId, moves[i], moves[j], a, o);
      } else {
        BlockerIsClear(shapes, pageId, after, moves, gap, i, o');
      }
    }
  }

  /** Whatever is nobody's kin was a blocker, and still is one. */
  lemma BlockerIsClear(shapes: seq<Shape>, pageId: Id, after: Layout, moves: seq<Move>, gap: real, i: nat, o': Shape)
    requires AsPlanned(shapes, pageId, after, moves, gap) && i < |moves| && Rigid(ComputeLayout(shapes, pageId), moves, i)
    requires o' in after.walked.order && o'.kind == Box && o'.id in after.bounds
    requires forall j :: 0 <= j < |moves| ==> o'.id !in Kin(ComputeLayout(shapes, pageId), pageId, moves[j].id)
    ensures moves[i].id in after.bounds && OverlapArea(after.bounds[moves[i].id], after.bounds[o'.id]) == 0.0
  {
    var l := ComputeLayout(shapes, pageId);
    OutsideAllKin(l, pageId, moves, o'.id);
    SameKin(l, after, pageId, IdsOf(moves));
    BlockingMember(after.walked.order, after.bounds, KinOf(after, pageId, IdsOf(moves)), o');
    assert StandsClear(after, moves[i].id, Blockers(after, pageId, IdsOf(moves)), gap);
  }

  lemma LandingIsSeen(shapes: seq<Shape>, pageId: Id, after: Layout, moves: seq<Move>, gap: real, i: nat, j: nat, a: Shape, o: Shape)
    requires UniqueIds(shapes, pageId) && AsPlanned(shapes, pageId, after, moves, gap) && i < |moves| && j < |moves|
    requires a in ComputeLayout(shapes, pageId).walked.order && o in ComputeLayout(shapes, pageId).walked.order
    requires LandsOnKin(ComputeLayout(shapes, pageId), pageId, moves[i], moves[j], a, o)
    ensures !NoOverlap(after, pageId, IdsOf(moves))
  {
    var l := ComputeLayout(shapes, pageId);
    var a' := Counterpart(l.walked.order, after.walked.order, a);
    var o' := Counterpart(l.walked.order, after.walked.order, o);
    KinStays(l, after, pageId, a.id);
    KinEnds(shapes, pageId, after, moves, i, a);
    KinEnds(shapes, pageId, after, moves, j, o);
    IdsAre(moves);
    assert IdsOf(moves)[i] == a'.id;
    assert Overlaps(after, pageId, a', o');
  }

  /** The pairs asked about are pairs of different members. */
  ghost predicate PairsOf(moves: seq<Move>, pairs: seq<(Id, Id)>) {
    forall p :: p in pairs ==> exists i, j :: 0 <= i < |moves| && 0 <= j < |moves| && i != j && p == (moves[i].id, moves[j].id)
  }

  ghost predicate AllRigid(l: Layout, moves: seq<Move>) {
    forall i :: 0 <= i < |moves| ==> Rigid(l, moves, i)
  }

  lemma PairsAreSpaced(l: Layout, after: Layout, moves: seq<Move>, gap: real, pairs: seq<(Id, Id)>)
    requires RigidSpaced(l, after, moves, gap) && AllRigid(l, moves) && PairsOf(moves, pairs)
    ensures PairsSpaced(after, pairs, gap)
  {
    forall p | p in pairs && p.0 in after.bounds && p.1 in after.bounds
      ensures GapBetween(after.bounds[p.0], after.bounds[p.1]) >= gap - SPACING_TOLERANCE
    {
      var i, j :| 0 <= i < |moves| && 0 <= j < |moves| && i != j && p == (moves[i].id, moves[j].id);
      assert Spaced(after, moves[i].id, moves[j].id, gap);
    }
  }

  lemma MembersAreSpaced(shapes: seq<Shape>, pageId: Id, after: Layout, moves: seq<Move>, gap: real)
    requires UniqueIds(shapes, pageId) && AsPlanned(shapes, pageId, after, moves, gap)
    ensures NoneCrowds(after, pageId, IdsOf(moves), gap)
  {
    IdsAre(moves);
    forall a, o | a in after.walked.order && o in after.walked.order && a.id in IdsOf(moves) && o.id in IdsOf(moves)
      ensures !Crowds(after, pageId, a, o, gap)
    {
      if Compares(after, pageId, a, o) {
        var i :| 0 <= i < |moves| && moves[i].id == a.id;
        var j :| 0 <= j < |moves| && moves[j].id == o.id;
        BoxMember(shapes, pageId, after, moves, gap, i, a);
        BoxMember(shapes, pageId, after, moves, gap, j, o);
        if i != j {
          assert Spaced(after, moves[i].id, moves[j].id, gap);
        }
      }
    }
  }

  lemma BoxMember(shapes: seq<Shape>, pageId: Id, after: Layout, moves: seq<Move>, gap: real, i: nat, a': Shape)
    requires UniqueIds(shapes, pageId) && AsPlanned(shapes, pageId, after, moves, gap) && i < |moves|
    requires a' in after.walked.order && a'.id == moves[i].id && a'.kind == Box
    ensures Rigid(ComputeLayout(shapes, pageId), moves, i)
  {
    var l := ComputeLayout(shapes, pageId);
    var a := Original(l.walked.order, after.walked.order, a');
    BoxIsRigid(shapes, pageId, moves, i, a);
  }

  /** Known before the write: every pair far enough apart in the boxes foreseen. */
  ghost predicate PairsForeseen(shapes: seq<Shape>, l: Layout, moves: seq<Move>, pairs: seq<(Id, Id)>, gap: real) {
    PairsSpaced(Layout(l.walked, AllForeseen(shapes, l, moves)), pairs, gap)
  }

  /**
   * The verdict on a written arrangement: an overlap is found if and only if, as could be told beforehand, some
   * member was to land on what is inside or around another. Blockers and members themselves never overlap; only what
   * the blockers leave out on a member's account can. Spacing is kept if and only if it could be foreseen, and that
   * it could if every member is rigid: a box, or a group that no arrow binds to what is elsewhere.
   */
  lemma ArrangementVerdict(shapes: seq<Shape>, pageId: Id, items: seq<Item>, moves: seq<Move>, gap: real, pairs: seq<(Id, Id)>)
    requires UniqueIds(shapes, pageId) && UnitTurns(shapes) && Independent(ComputeLayout(shapes, pageId), moves) && gap >= SPACING_TOLERANCE
    requires WellPlanned(ComputeLayout(shapes, pageId), pageId, items, moves, gap) && PairsOf(moves, pairs)
    ensures var l := ComputeLayout(shapes, pageId);
            var after := ComputeLayout(ApplyMoves(shapes, l, moves), pageId);
            && (NoOverlap(after, pageId, IdsOf(moves)) <==> KeepOut(l, pageId, moves))
            && (SpacedOut(after, pageId, IdsOf(moves), pairs, gap) <==> PairsForeseen(shapes, l, moves, pairs, gap))
            && (AllRigid(l, moves) ==> SpacedOut(after, pageId, IdsOf(moves), pairs, gap))
  {
    var l := ComputeLayout(shapes, pageId);
    var after := ComputeLayout(ApplyMoves(shapes, l, moves), pageId);
    PlanIsWritten(shapes, pageId, items, moves, gap);
    MovesAreRealised(shapes, pageId, moves);
    MembersAreSpaced(shapes, pageId, after, moves, gap);
    if AllRigid(l, moves) {
      PairsAreSpaced(l, after, moves, gap, pairs);
    }
    if KeepOut(l, pageId, moves) {
      KeptOutIsNoOverlap(shapes, pageId, after, moves, gap);
    } else {
      NotKeptOutIsOverlap(shapes, pageId, after, moves, gap);
    }
  }

  /** Two members one of which holds an arrow bound to the other, a box, are never found apart, however they are planned. */
  lemma TiedMembersTouch(shapes: seq<Shape>, pageId: Id, moves: seq<Move>, gap: real, pairs: seq<(Id, Id)>, i: nat, j: nat, s: Shape)
    requires UniqueIds(shapes, pageId) && UnitTurns(shapes) && Independent(ComputeLayout(shapes, pageId), moves)
    requires i < |moves| && j < |moves| && (moves[i].id, moves[j].id) in pairs
    requires var l := ComputeLayout(shapes, pageId);
             && s in l.walked.order && s.id == moves[i].id && s.kind == Box && s.id in l.bounds
             && Tied(l.walked.order, s.id, moves[j].id) && gap > SPACING_TOLERANCE + Slack(l.bounds[s.id])
    ensures !PairsForeseen(shapes, ComputeLayout(shapes, pageId), moves, pairs, gap)
  {
    var l := ComputeLayout(shapes, pageId);
    TiedIsFoundTouching(shapes, pageId, moves, s, moves[j].id);
    assert (moves[i].id, moves[j].id) in pairs;
  }

  lemma WrittenIsSettled(shapes: seq<Shape>, pageId: Id, moves: seq<Move>)
    requires UniqueIds(shapes, pageId) && UnitTurns(shapes) && Independent(ComputeLayout(shapes, pageId), moves)
    ensures var l := ComputeLayout(shapes, pageId); var shapes' := ApplyMoves(shapes, l, moves);
            var after := ComputeLayout(shapes', pageId);
            && Settled(shapes', after) && AllProper(after.bounds) && SameRecords(l.walked.order, after.walked.order)
            && AllMade(l, after, moves) && after.bounds == AllForeseen(shapes, l, moves)
  {
    MovesAreRealised(shapes, pageId, moves);
    LayoutIsSettled(ApplyMoves(shapes, ComputeLayout(shapes, pageId), moves), pageId);
    LayoutIsProper(ApplyMoves(shapes, ComputeLayout(shapes, pageId), moves), pageId);
  }

  lemma TiedIsFoundTouching(shapes: seq<Shape>, pageId: Id, moves: seq<Move>, s: Shape, targetId: Id)
    requires UniqueIds(shapes, pageId) && UnitTurns(shapes) && Independent(ComputeLayout(shapes, pageId), moves)
    requires var l := ComputeLayout(shapes, pageId);
             s in l.walked.order && s.kind == Box && s.id in l.bounds && Tied(l.walked.order, s.id, targetId)
    ensures var l := ComputeLayout(shapes, pageId); var boxes := AllForeseen(shapes, l, moves);
            s.id in boxes && targetId in boxes && GapBetween(boxes[s.id], boxes[targetId]) <= Slack(l.bounds[s.id])
  {
    var l := ComputeLayout(shapes, pageId);
    var shapes' := ApplyMoves(shapes, l, moves);
    var after := ComputeLayout(shapes', pageId);
    WrittenIsSettled(shapes, pageId, moves);
    ListedHaveFrames(shapes, pageId);
    BoxLands(l, after, moves, s);
    TiedIsKept(l.walked.order, after.walked.order, s.id, targetId);
    TiedIsTouching(shapes', after, s.id, targetId);
  }

  lemma NotKeptOutIsOverlap(shapes: seq<Shape>, pageId: Id, after: Layout, moves: seq<Move>, gap: real)
    requires UniqueIds(shapes, pageId) && AsPlanned(shapes, pageId, after, moves, gap) && !KeepOut(ComputeLayout(shapes, pageId), pageId, moves)
    ensures !NoOverlap(after, pageId, IdsOf(moves))
  {
    var l := ComputeLayout(shapes, pageId);
    var i, j, a, o :| 0 <= i < |moves| && 0 <= j < |moves| && i != j && a in l.walked.order && o in l.walked.order &&
      LandsOnKin(l, pageId, moves[i], moves[j], a, o);
    LandingIsSeen(shapes, pageId, after, moves, gap, i, j, a, o);
  }

  lemma KeptOutIsNoOverlap(shapes: seq<Shape>, pageId: Id, after: Layout, moves: seq<Move>, gap: real)
    requires UniqueIds(shapes, pageId) && AsPlanned(shapes, pageId, after, moves, gap) && KeepOut(ComputeLayout(shapes, pageId), pageId, moves)
    ensures NoOverlap(after, pageId, IdsOf(moves))
  {
    IdsAre(moves);
    forall a, o | a in after.walked.order && o in after.walked.order && a.id in IdsOf(moves)
      ensures !Overlaps(after, pageId, a, o)
    {
      var i :| 0 <= i < |moves| && moves[i].id == a.id;
      PairVerdict(shapes, pageId, after, moves, gap, i, a, o);
    }
  }

  /* --------------------------------------------------------------- what may be moved */

  function BoundsAt(l: Layout, id: Id): Rect {
    if id in l.bounds then l.bounds[id] else Rect(0.0, 0.0, 0.0, 0.0)
  }

  function ItemsAt(l: Layout, ids: seq<Id>): seq<Item> {
    seq(|ids|, i requires 0 <= i < |ids| => Item(ids[i], BoundsAt(l, ids[i])))
  }

  /** The corner of everything to be arranged, unless another start is asked for. */
  function Origin(items: seq<Item>, x: Option<real>, y: Option<real>): Point
    requires items != []
  {
    var union := Union(seq(|items|, i requires 0 <= i < |items| => items[i].bounds));
    Point(if x.Some? then x.value else union.x, if y.Some? then y.value else union.y)
  }

  /** Each once, where it first came. */
  function Unique(ids: seq<Id>): (unique: seq<Id>)
    ensures forall i, j :: 0 <= i < j < |unique| ==> unique[i] != unique[j]
    ensures forall id :: id in unique <==> id in ids
    decreases |ids|
  {
    if ids == [] then []
    else
      var front, last := Unique(ids[..|ids| - 1]), ids[|ids| - 1];
      assert forall id :: id in ids <==> id == last || id in ids[..|ids| - 1];
      if last in front then front else front + [last]
  }

  method Distinct(ids: seq<Id>) returns (unique: seq<Id>)
    ensures unique == Unique(ids)
  {
    unique := [];
    for i := 0 to |ids|
      invariant unique == Unique(ids[..i])
    {
      assert ids[..i + 1][..i] == ids[..i];
      if ids[i] !in unique {
        unique := unique + [ids[i]];
      }
    }
    assert ids[..|ids|] == ids;
  }

  /** None of these is directly in a turned arrow. */
  ghost predicate AllSteered(l: Layout, ids: seq<Id>) {
    forall s :: s in l.walked.order && s.id in ids ==> Steered(l.walked, s)
  }

  /** What may be moved together lands independently. */
  lemma MovableIsIndependent(shapes: seq<Shape>, pageId: Id, ids: seq<Id>, moves: seq<Move>)
    requires UniqueIds(shapes, pageId) && Movable(ComputeLayout(shapes, pageId), pageId, ids) && IdsOf(moves) == ids
    requires AllSteered(ComputeLayout(shapes, pageId), ids)
    ensures Independent(ComputeLayout(shapes, pageId), moves)
  {
    var l := ComputeLayout(shapes, pageId);
    IdsAre(moves);
    forall i | 0 <= i < |moves|
      ensures Lists(l.walked.order, moves[i].id) && moves[i].id in ids
    {
      assert moves[i].id == ids[i] && ids[i] in ids;
      BoundedIsListed(shapes, pageId, moves[i].id);
    }
    forall i, j | 0 <= i < |moves| && 0 <= j < |moves| && i != j
      ensures moves[j].id !in Inward(l.walked.order, moves[i].id)
    {
      assert ids[i] in ids && ids[j] in ids && ids[i] != ids[j];
      ContainmentAgrees(EnterShape, shapes, pageId, ids[i], ids[j]);
    }
  }

  /* ---------------------------------------------------------------------- the actions */

  /** The records written, the moves, what was asked of the verifier, and its answer. */
  datatype Arranged = Arranged(written: seq<Shape>, moves: seq<Move>, pairs: seq<(Id, Id)>, alignment: Option<Alignment>, verification: Verification)

  /** What the action reports, for an arrangement it could clear of its blockers. */
  ghost predicate Verdict(shapes: seq<Shape>, l: Layout, pageId: Id, r: Arranged, gap: real) {
    && (r.verification.overlaps == [] <==> KeepOut(l, pageId, r.moves))
    && (r.verification.spacingOk <==> PairsForeseen(shapes, l, r.moves, r.pairs, gap))
    && (r.verification.alignmentOk <==> Aligned(Layout(l.walked, AllForeseen(shapes, l, r.moves)), r.alignment))
    && (AllRigid(l, r.moves) ==> r.verification.spacingOk && r.verification.alignmentOk)
  }

  lemma PlannedAreProper(shapes: seq<Shape>, pageId: Id, ids: seq<Id>, moves: seq<Move>)
    requires var l := ComputeLayout(shapes, pageId);
             Movable(l, pageId, ids) && MovesOf(ItemsAt(l, ids), moves)
    ensures var l := ComputeLayout(shapes, pageId);
            && ItemsOf(l, ItemsAt(l, ids), moves)
            && forall r :: r in Boxes(ItemsAt(l, ids), moves) ==> Proper(r)
  {
    LayoutIsProper(shapes, pageId);
    var l := ComputeLayout(shapes, pageId);
    forall i | 0 <= i < |ids|
      ensures ids[i] in l.bounds && Proper(l.bounds[ids[i]])
    {
      assert ids[i] in ids;
    }
  }

  lemma IdsOfMoves(items: seq<Item>, moves: seq<Move>, l: Layout, ids: seq<Id>)
    requires items == ItemsAt(l, ids) && MovesOf(items, moves)
    ensures IdsOf(moves) == ids
  {
    IdsAre(moves);
  }

  /** Writes the moves, lays the page out again and verifies it. */
  method WriteAndVerify(shapes: seq<Shape>, pageId: Id, l: Layout, items: seq<Item>, moves: seq<Move>, pairs: seq<(Id, Id)>, gap: real,
                        alignment: Option<Alignment>)
    returns (r: Arranged)
    requires UniqueIds(shapes, pageId) && l == ComputeLayout(shapes, pageId) && MovesOf(items, moves) && PairsOf(moves, pairs)
    ensures r.moves == moves && r.pairs == pairs && r.alignment == alignment && r.written == ApplyMoves(shapes, l, moves)
    ensures UnitTurns(shapes) && Independent(l, moves) && gap >= SPACING_TOLERANCE && WellPlanned(l, pageId, items, moves, gap) ==>
              && (r.verification.overlaps == [] <==> KeepOut(l, pageId, moves))
              && (r.verification.spacingOk <==> PairsForeseen(shapes, l, moves, pairs, gap))
              && (AllRigid(l, moves) ==> r.verification.spacingOk)
    ensures r.verification.alignmentOk <==> Aligned(ComputeLayout(r.written, pageId), alignment)
  {
    var written := WriteMoves(shapes, l, moves);
    WritesKeepIds(shapes, pageId, l, moves);
    var after := ComputeLayout(written, pageId);
    WalkedPageIsTree(EnterShape, written, pageId);
    LayoutIsSettled(written, pageId);
    var v := VerifyLayout(after, pageId, IdsOf(moves), pairs, Some(gap), alignment);
    if UnitTurns(shapes) && Independent(l, moves) && gap >= SPACING_TOLERANCE && WellPlanned(l, pageId, items, moves, gap) {
      ArrangementVerdict(shapes, pageId, items, moves, gap, pairs);
    }
    r := Arranged(written, moves, pairs, alignment, v);
  }

  ghost predicate NextPairs(moves: seq<Move>, pairs: seq<(Id, Id)>) {
    |pairs| == |moves| - 1 && forall i :: 0 <= i < |pairs| ==> pairs[i] == (moves[i].id, moves[i + 1].id)
  }

  /** Each member with the next. */
  method Neighbours(moves: seq<Move>) returns (pairs: seq<(Id, Id)>)
    ensures PairsOf(moves, pairs)
    ensures |moves| > 0 ==> NextPairs(moves, pairs)
  {
    pairs := [];
    if |moves| == 0 {
      return;
    }
    for i := 0 to |moves| - 1
      invariant |pairs| == i && forall k :: 0 <= k < i ==> pairs[k] == (moves[k].id, moves[k + 1].id)
    {
      pairs := pairs + [(moves[i].id, moves[i + 1].id)];
    }
    forall p | p in pairs
      ensures exists i, j :: 0 <= i < |moves| && 0 <= j < |moves| && i != j && p == (moves[i].id, moves[j].id)
    {
      var k :| 0 <= k < |pairs| && pairs[k] == p;
      assert p == (moves[k].id, moves[k + 1].id);
    }
  }

  lemma GapIsSymmetric(a: Rect, b: Rect)
    ensures GapBetween(a, b) == GapBetween(b, a)
  {
  }

  /** Lines of rigid members that agree in the plan agree, but for twice the smallest move, in the recomputed layout. */
  lemma StaysAligned(shapes: seq<Shape>, pageId: Id, items: seq<Item>, moves: seq<Move>, axis: AlignAxis, line: real)
    requires UniqueIds(shapes, pageId) && UnitTurns(shapes) && Independent(ComputeLayout(shapes, pageId), moves)
    requires ItemsOf(ComputeLayout(shapes, pageId), items, moves) && AllRigid(ComputeLayout(shapes, pageId), moves)
    requires forall i :: 0 <= i < |items| ==> LineOf(After(items[i], moves[i]), axis) == line
    ensures Aligned(ComputeLayout(ApplyMoves(shapes, ComputeLayout(shapes, pageId), moves), pageId), Some(Alignment(axis, IdsOf(moves))))
  {
    var l := ComputeLayout(shapes, pageId);
    var after := ComputeLayout(ApplyMoves(shapes, l, moves), pageId);
    MovesAreRealised(shapes, pageId, moves);
    IdsAre(moves);
    forall a | a in IdsOf(moves) && a in after.bounds
      ensures line - SMALLEST_MOVE <= LineOf(after.bounds[a], axis) <= line + SMALLEST_MOVE
    {
      var i :| 0 <= i < |moves| && moves[i].id == a;
      RigidLands(l, after, moves, i);
      LandsAsPlanned(items[i], moves[i]);
      NearTheLine(after.bounds[a], After(items[i], moves[i]), axis);
    }
  }

  /** Alignment, too, is as it could be foreseen. */
  lemma AlignmentForeseen(shapes: seq<Shape>, pageId: Id, items: seq<Item>, moves: seq<Move>, axis: AlignAxis, line: real)
    requires UniqueIds(shapes, pageId) && UnitTurns(shapes) && Independent(ComputeLayout(shapes, pageId), moves)
    requires ItemsOf(ComputeLayout(shapes, pageId), items, moves)
    requires forall i :: 0 <= i < |items| ==> LineOf(After(items[i], moves[i]), axis) == line
    ensures var l, alignment := ComputeLayout(shapes, pageId), Some(Alignment(axis, IdsOf(moves)));
            var after := ComputeLayout(ApplyMoves(shapes, l, moves), pageId);
            && (Aligned(after, alignment) <==> Aligned(Layout(l.walked, AllForeseen(shapes, l, moves)), alignment))
            && (AllRigid(l, moves) ==> Aligned(after, alignment))
  {
    MovesAreRealised(shapes, pageId, moves);
    if AllRigid(ComputeLayout(shapes, pageId), moves) {
      StaysAligned(shapes, pageId, items, moves, axis, line);
    }
  }

  lemma NearTheLine(box: Rect, planned: Rect, axis: AlignAxis)
    requires Arrived(box, planned)
    ensures LineOf(planned, axis) - SMALLEST_MOVE <= LineOf(box, axis) <= LineOf(planned, axis) + SMALLEST_MOVE
  {
  }

  lemma RowIsWellPlanned(shapes: seq<Shape>, pageId: Id, ids: seq<Id>, moves: seq<Move>, gap: real)
    requires UniqueIds(shapes, pageId) && Movable(ComputeLayout(shapes, pageId), pageId, ids) && gap >= 0.0
    requires var l := ComputeLayout(shapes, pageId);
             && MovesOf(ItemsAt(l, ids), moves) && IsRow(Boxes(ItemsAt(l, ids), moves), gap)
             && forall i :: 0 <= i < |ids| ==> Clear(Blockers(l, pageId, ids), Boxes(ItemsAt(l, ids), moves)[i], gap)
    ensures WellPlanned(ComputeLayout(shapes, pageId), pageId, ItemsAt(ComputeLayout(shapes, pageId), ids), moves, gap)
  {
    var l := ComputeLayout(shapes, pageId);
    var items := ItemsAt(l, ids);
    var boxes := Boxes(items, moves);
    PlannedAreProper(shapes, pageId, ids, moves);
    IdsOfMoves(items, moves, l, ids);
    forall k | 0 <= k < |boxes|
      ensures Proper(boxes[k]) && boxes[k] == After(items[k], moves[k])
    {
      assert boxes[k] in boxes;
    }
    forall i, j | 0 <= i < |items| && 0 <= j < |items| && i != j
      ensures GapBetween(After(items[i], moves[i]), After(items[j], moves[j])) >= gap
    {
      RowIsSpaced(boxes, gap, if i < j then i else j, if i < j then j else i);
      GapIsSymmetric(boxes[i], boxes[j]);
    }
  }

  lemma StackIsWellPlanned(shapes: seq<Shape>, pageId: Id, ids: seq<Id>, moves: seq<Move>, gap: real)
    requires UniqueIds(shapes, pageId) && Movable(ComputeLayout(shapes, pageId), pageId, ids) && gap >= 0.0
    requires var l := ComputeLayout(shapes, pageId);
             && MovesOf(ItemsAt(l, ids), moves) && IsStack(Boxes(ItemsAt(l, ids), moves), gap)
             && forall i :: 0 <= i < |ids| ==> Clear(Blockers(l, pageId, ids), Boxes(ItemsAt(l, ids), moves)[i], gap)
    ensures WellPlanned(ComputeLayout(shapes, pageId), pageId, ItemsAt(ComputeLayout(shapes, pageId), ids), moves, gap)
  {
    var l := ComputeLayout(shapes, pageId);
    var items := ItemsAt(l, ids);
    var boxes := Boxes(items, moves);
    PlannedAreProper(shapes, pageId, ids, moves);
    IdsOfMoves(items, moves, l, ids);
    forall k | 0 <= k < |boxes|
      ensures Proper(boxes[k]) && boxes[k] == After(items[k], moves[k])
    {
      assert boxes[k] in boxes;
    }
    forall i, j | 0 <= i < |items| && 0 <= j < |items| && i != j
      ensures GapBetween(After(items[i], moves[i]), After(items[j], moves[j])) >= gap
    {
      StackIsSpaced(boxes, gap, if i < j then i else j, if i < j then j else i);
      GapIsSymmetric(boxes[i], boxes[j]);
    }
  }

  lemma ClearByLess(blockers: seq<Rect>, box: Rect, more: real, less: real)
    requires Clear(blockers, box, more) && less <= more
    ensures Clear(blockers, box, less)
  {
  }

  lemma GridIsWellPlanned(shapes: seq<Shape>, pageId: Id, ids: seq<Id>, moves: seq<Move>, columns: nat, columnGap: real, rowGap: real)
    requires UniqueIds(shapes, pageId) && Movable(ComputeLayout(shapes, pageId), pageId, ids) && columns > 0
    requires var l := ComputeLayout(shapes, pageId);
             && MovesOf(ItemsAt(l, ids), moves) && IsGrid(Boxes(ItemsAt(l, ids), moves), ColumnIn(columns), RowIn(columns), columnGap, rowGap)
             && forall i :: 0 <= i < |ids| ==> Clear(Blockers(l, pageId, ids), Boxes(ItemsAt(l, ids), moves)[i], Max(columnGap, rowGap))
    ensures WellPlanned(ComputeLayout(shapes, pageId), pageId, ItemsAt(ComputeLayout(shapes, pageId), ids), moves, Min(columnGap, rowGap))
  {
    var l := ComputeLayout(shapes, pageId);
    var items := ItemsAt(l, ids);
    var boxes := Boxes(items, moves);
    PlannedAreProper(shapes, pageId, ids, moves);
    IdsOfMoves(items, moves, l, ids);
    forall i, j | 0 <= i < |items| && 0 <= j < |items| && i != j
      ensures GapBetween(After(items[i], moves[i]), After(items[j], moves[j])) >= Min(columnGap, rowGap)
    {
      GridIsSpaced(boxes, columns, columnGap, rowGap, i, j);
    }
    forall i | 0 <= i < |items|
      ensures Clear(Blockers(l, pageId, IdsOf(moves)), After(items[i], moves[i]), Min(columnGap, rowGap))
    {
      ClearByLess(Blockers(l, pageId, ids), boxes[i], Max(columnGap, rowGap), Min(columnGap, rowGap));
    }
  }

  lemma MovesOfRowLine(items: seq<Item>, moves: seq<Move>, align: Align)
    requires items != [] && MovesOf(items, moves) && AlignedAcross(Boxes(items, moves), align)
    ensures forall i :: 0 <= i < |items| ==> LineOf(After(items[i], moves[i]), Across(align)) == AcrossLine(Boxes(items, moves)[0], align)
  {
    forall i | 0 <= i < |items|
      ensures LineOf(After(items[i], moves[i]), Across(align)) == AcrossLine(Boxes(items, moves)[0], align)
    {
      assert Boxes(items, moves)[i] == After(items[i], moves[i]);
    }
  }

  lemma MovesOfStackLine(items: seq<Item>, moves: seq<Move>, align: Align)
    requires items != [] && MovesOf(items, moves) && AlignedDown(Boxes(items, moves), align)
    ensures forall i :: 0 <= i < |items| ==> LineOf(After(items[i], moves[i]), Down(align)) == DownLine(Boxes(items, moves)[0], align)
  {
    forall i | 0 <= i < |items|
      ensures LineOf(After(items[i], moves[i]), Down(align)) == DownLine(Boxes(items, moves)[0], align)
    {
      assert Boxes(items, moves)[i] == After(items[i], moves[i]);
    }
  }

  /** The members of a layout action: each once, all movable, or why not. */
  method Members(l: Layout, pageId: Id, asked: seq<Id>) returns (ids: seq<Id>, failure: Option<Failure>)
    requires asked != []
    ensures ids == Unique(asked) && ids != []
    ensures failure.None? <==> Movable(l, pageId, ids)
    ensures failure.Some? ==> Prevents(l, pageId, ids, [], failure.value)
  {
    assert asked[0] in Unique(asked);
    ids := Distinct(asked);
    failure := CheckMovable(l, pageId, ids, []);
  }

  /** The verdict is settled beforehand: turns are proper, collisions avoided among few enough blockers, and the gap not tiny. */
  ghost predicate Settles(shapes: seq<Shape>, l: Layout, ids: seq<Id>, blockers: seq<Rect>, gap: real, avoidCollisions: bool) {
    UnitTurns(shapes) && AllSteered(l, ids) && gap >= SPACING_TOLERANCE && avoidCollisions && |blockers| <= SLIDE_CAP
  }

  /**
   * The row action, from ids to verdict: the row as planned, dropped clear of its blockers; overlaps are reported
   * exactly when a member lands on what is inside or around another, and spacing and alignment exactly as foreseen.
   */
  method ArrangeRow(shapes: seq<Shape>, pageId: Id, asked: seq<Id>, x: Option<real>, y: Option<real>, align: Align, gap: real, avoidCollisions: bool)
    returns (r: Result<Arranged, Failure>, ghost planned: seq<Rect>, ghost dy: real)
    requires UniqueIds(shapes, pageId) && asked != []
    ensures var l, ids := ComputeLayout(shapes, pageId), Unique(asked);
            if r.Err? then !Movable(l, pageId, ids) && Prevents(l, pageId, ids, [], r.error) else Movable(l, pageId, ids)
    ensures r.Ok? ==>
              var l, ids := ComputeLayout(shapes, pageId), Unique(asked);
              && IdsOf(r.value.moves) == ids && MovesOf(ItemsAt(l, ids), r.value.moves) && r.value.written == ApplyMoves(shapes, l, r.value.moves)
              && NextPairs(r.value.moves, r.value.pairs) && r.value.alignment == Some(Alignment(Across(align), ids))
              && (Settles(shapes, l, ids, Blockers(l, pageId, ids), gap, avoidCollisions) ==> Verdict(shapes, l, pageId, r.value, gap))
    ensures r.Ok? ==>
              var l, ids := ComputeLayout(shapes, pageId), Unique(asked);
              var items, blockers := ItemsAt(l, ids), Blockers(l, pageId, ids);
              && RowFrom(planned, items, Origin(items, x, y), align, gap)
              && Dropped(planned, Boxes(items, r.value.moves), blockers, avoidCollisions, gap, dy)
  {
    var l := ComputeLayout(shapes, pageId);
    var members, failure := Members(l, pageId, asked);
    planned, dy := [], 0.0;
    if failure.Some? {
      return Err(failure.value), planned, dy;
    }
    var items := ItemsAt(l, members);
    var blockers := BlockersFor(l, pageId, members);
    var moves, plan, drop := RowMoves(items, Origin(items, x, y), align, gap, blockers, avoidCollisions);
    planned, dy := plan, drop;
    IdsOfMoves(items, moves, l, members);
    var pairs := Neighbours(moves);
    if Settles(shapes, l, members, blockers, gap, avoidCollisions) {
      MovableIsIndependent(shapes, pageId, members, moves);
      PlannedAreProper(shapes, pageId, members, moves);
      MovesOfRowLine(items, moves, align);
      AlignmentForeseen(shapes, pageId, items, moves, Across(align), AcrossLine(Boxes(items, moves)[0], align));
      RowIsWellPlanned(shapes, pageId, members, moves, gap);
    }
    var arranged := WriteAndVerify(shapes, pageId, l, items, moves, pairs, gap, Some(Alignment(Across(align), members)));
    return Ok(arranged), planned, dy;
  }

  /** The stack action, likewise. */
  method ArrangeStack(shapes: seq<Shape>, pageId: Id, asked: seq<Id>, x: Option<real>, y: Option<real>, align: Align, gap: real, avoidCollisions: bool)
    returns (r: Result<Arranged, Failure>, ghost planned: seq<Rect>, ghost dy: real)
    requires UniqueIds(shapes, pageId) && asked != []
    ensures var l, ids := ComputeLayout(shapes, pageId), Unique(asked);
            if r.Err? then !Movable(l, pageId, ids) && Prevents(l, pageId, ids, [], r.error) else Movable(l, pageId, ids)
    ensures r.Ok? ==>
              var l, ids := ComputeLayout(shapes, pageId), Unique(asked);
              && IdsOf(r.value.moves) == ids && MovesOf(ItemsAt(l, ids), r.value.moves) && r.value.written == ApplyMoves(shapes, l, r.value.moves)
              && NextPairs(r.value.moves, r.value.pairs) && r.value.alignment == Some(Alignment(Down(align), ids))
              && (Settles(shapes, l, ids, Blockers(l, pageId, ids), gap, avoidCollisions) ==> Verdict(shapes, l, pageId, r.value, gap))
    ensures r.Ok? ==>
              var l, ids := ComputeLayout(shapes, pageId), Unique(asked);
              var items, blockers := ItemsAt(l, ids), Blockers(l, pageId, ids);
              && StackFrom(planned, items, Origin(items, x, y), align, gap)
              && Dropped(planned, Boxes(items, r.value.moves), blockers, avoidCollisions, gap, dy)
  {
    var l := ComputeLayout(shapes, pageId);
    var members, failure := Members(l, pageId, asked);
    planned, dy := [], 0.0;
    if failure.Some? {
      return Err(failure.value), planned, dy;
    }
    var items := ItemsAt(l, members);
    var blockers := BlockersFor(l, pageId, members);
    var moves, plan, drop := StackMoves(items, Origin(items, x, y), align, gap, blockers, avoidCollisions);
    planned, dy := plan, drop;
    IdsOfMoves(items, moves, l, members);
    var pairs := Neighbours(moves);
    if Settles(shapes, l, members, blockers, gap, avoidCollisions) {
      MovableIsIndependent(shapes, pageId, members, moves);
      PlannedAreProper(shapes, pageId, members, moves);
      MovesOfStackLine(items, moves, align);
      AlignmentForeseen(shapes, pageId, items, moves, Down(align), DownLine(Boxes(items, moves)[0], align));
      StackIsWellPlanned(shapes, pageId, members, moves, gap);
    }
    var arranged := WriteAndVerify(shapes, pageId, l, items, moves, pairs, gap, Some(Alignment(Down(align), members)));
    return Ok(arranged), planned, dy;
  }

  ghost predicate CellPaired(moves: seq<Move>, columns: nat, pairs: seq<(Id, Id)>, i: nat)
    requires columns > 0 && i < |moves|
  {
    && (i + 1 < |moves| && (i + 1) % columns != 0 ==> (moves[i].id, moves[i + 1].id) in pairs)
    && (i + columns < |moves| ==> (moves[i].id, moves[i + columns].id) in pairs)
  }

  /** Each member with the next in its row and with the next in its column. */
  method CellNeighbours(moves: seq<Move>, columns: nat) returns (pairs: seq<(Id, Id)>)
    requires columns > 0
    ensures PairsOf(moves, pairs)
    ensures forall i :: 0 <= i < |moves| ==> CellPaired(moves, columns, pairs, i)
  {
    pairs := [];
    for i := 0 to |moves|
      invariant PairsOf(moves, pairs)
      invariant forall k :: 0 <= k < i ==> CellPaired(moves, columns, pairs, k)
    {
      ghost var before := pairs;
      if (i + 1) % columns != 0 && i + 1 < |moves| {
        pairs := pairs + [(moves[i].id, moves[i + 1].id)];
      }
      if i + columns < |moves| {
        pairs := pairs + [(moves[i].id, moves[i + columns].id)];
      }
      forall k | 0 <= k < i
        ensures CellPaired(moves, columns, pairs, k)
      {
        assert CellPaired(moves, columns, before, k);
      }
    }
  }

  /** The grid action, likewise, asked for the smaller of its two gaps and for no alignment. */
  method ArrangeGrid(shapes: seq<Shape>, pageId: Id, asked: seq<Id>, columns: nat, x: Option<real>, y: Option<real>, columnGap: real, rowGap: real,
                     avoidCollisions: bool)
    returns (r: Result<Arranged, Failure>, ghost planned: seq<Rect>, ghost dy: real, ghost widths: seq<real>, ghost heights: seq<real>)
    requires UniqueIds(shapes, pageId) && asked != [] && columns > 0 && columnGap >= 0.0 && rowGap >= 0.0
    ensures var l, ids := ComputeLayout(shapes, pageId), Unique(asked);
            if r.Err? then !Movable(l, pageId, ids) && Prevents(l, pageId, ids, [], r.error) else Movable(l, pageId, ids)
    ensures r.Ok? ==>
              var l, ids := ComputeLayout(shapes, pageId), Unique(asked);
              && IdsOf(r.value.moves) == ids && MovesOf(ItemsAt(l, ids), r.value.moves) && r.value.written == ApplyMoves(shapes, l, r.value.moves)
              && (forall i :: 0 <= i < |ids| ==> CellPaired(r.value.moves, columns, r.value.pairs, i)) && r.value.alignment == None
              && (Settles(shapes, l, ids, Blockers(l, pageId, ids), Min(columnGap, rowGap), avoidCollisions) ==> Verdict(shapes, l, pageId, r.value, Min(columnGap, rowGap)))
    ensures r.Ok? ==>
              var l, ids := ComputeLayout(shapes, pageId), Unique(asked);
              var items, blockers := ItemsAt(l, ids), Blockers(l, pageId, ids);
              && GridFrom(planned, items, columns, Origin(items, x, y), columnGap, rowGap, widths, heights)
              && Dropped(planned, Boxes(items, r.value.moves), blockers, avoidCollisions, Max(columnGap, rowGap), dy)
  {
    var l := ComputeLayout(shapes, pageId);
    var members, failure := Members(l, pageId, asked);
    planned, dy, widths, heights := [], 0.0, [], [];
    if failure.Some? {
      return Err(failure.value), planned, dy, widths, heights;
    }
    var items := ItemsAt(l, members);
    var blockers := BlockersFor(l, pageId, members);
    var moves, plan, drop, ws, hs := GridMoves(items, columns, Origin(items, x, y), columnGap, rowGap, blockers, avoidCollisions);
    planned, dy, widths, heights := plan, drop, ws, hs;
    IdsOfMoves(items, moves, l, members);
    if Settles(shapes, l, members, blockers, Min(columnGap, rowGap), avoidCollisions) {
      MovableIsIndependent(shapes, pageId, members, moves);
      GridIsWellPlanned(shapes, pageId, members, moves, columns, columnGap, rowGap);
    }
    var pairs := CellNeighbours(moves, columns);
    var arranged := WriteAndVerify(shapes, pageId, l, items, moves, pairs, Min(columnGap, rowGap), None);
    return Ok(arranged), planned, dy, widths, heights;
  }
}
