/**
 * Writing back a whole list of moves. Every move is turned into its container's frame by the layout computed
 * before the first of them, and the page is laid out again only after the last.
 */
module BatchMoves {
  import opened Wrappers
  import opened Geometry
  import opened Sliding
  import opened Arrange
  import opened Transforms
  import opened LayoutTree
  import opened Drift
  import opened Containment
  import opened Placement
  import opened Certification
  import opened Spacing

  /** One move, written to the record as it stands now. */
  function ApplyOne(shapes: seq<Shape>, l: Layout, m: Move): seq<Shape> {
    var record := Find(shapes, m.id);
    if record.None? then shapes else ApplyMove(shapes, l, record.value, m.dx, m.dy)
  }

  function ApplyMoves(shapes: seq<Shape>, l: Layout, moves: seq<Move>): seq<Shape>
    decreases |moves|
  {
    if moves == [] then shapes else ApplyOne(ApplyMoves(shapes, l, moves[..|moves| - 1]), l, moves[|moves| - 1])
  }

  method WriteMoves(shapes: seq<Shape>, l: Layout, moves: seq<Move>) returns (written: seq<Shape>)
    ensures written == ApplyMoves(shapes, l, moves)
  {
    written := shapes;
    for i := 0 to |moves|
      invariant written == ApplyMoves(shapes, l, moves[..i])
    {
      var move := moves[i];
      assert moves[..i + 1][..i] == moves[..i];
      if Abs(move.dx) < SMALLEST_MOVE && Abs(move.dy) < SMALLEST_MOVE {
        continue;
      }
      var record := Find(written, move.id);
      if record.Some? {
        var s := TranslateShape(record.value, move.dx, move.dy, l);
        written := Written(written, s);
      }
    }
    assert moves[..|moves|] == moves;
  }

  /** Shapes that are moved together: each listed once, none inside another, and none directly in a turned arrow. */
  ghost predicate Independent(l: Layout, moves: seq<Move>) {
    && (forall i :: 0 <= i < |moves| ==> Lists(l.walked.order, moves[i].id))
    && (forall i, j :: 0 <= i < |moves| && 0 <= j < |moves| && i != j ==> moves[j].id !in Inward(l.walked.order, moves[i].id))
    && (forall i, s :: 0 <= i < |moves| && s in l.walked.order && s.id == moves[i].id ==> Steered(l.walked, s))
  }

  /** Which move carries a shape, counted from 1; 0 for none of them. */
  function Mover(order: seq<Shape>, moves: seq<Move>, k: Id): nat
    decreases |moves|
  {
    if moves == [] then 0
    else if k in Inward(order, moves[|moves| - 1].id) then |moves|
    else Mover(order, moves[..|moves| - 1], k)
  }

  function Moving(w: Walked, moves: seq<Move>): map<Id, nat> {
    map k | k in w.frame :: Mover(w.order, moves, k)
  }

  /** What each move carries by, after the delta of what no move carries. */
  function Deltas(moves: seq<Move>): (deltas: seq<Point>)
    ensures |deltas| == |moves| + 1 && deltas[0] == STILL
    ensures forall i :: 0 <= i < |moves| ==> deltas[i + 1] == Made(moves[i].dx, moves[i].dy)
    decreases |moves|
  {
    if moves == [] then [STILL]
    else Deltas(moves[..|moves| - 1]) + [Made(moves[|moves| - 1].dx, moves[|moves| - 1].dy)]
  }

  lemma {:induction false} MoverMeans(order: seq<Shape>, moves: seq<Move>, k: Id)
    ensures var n := Mover(order, moves, k);
            n <= |moves| && if n == 0 then forall i :: 0 <= i < |moves| ==> k !in Inward(order, moves[i].id) else k in Inward(order, moves[n - 1].id)
    decreases |moves|
  {
    if moves != [] && k !in Inward(order, moves[|moves| - 1].id) {
      MoverMeans(order, moves[..|moves| - 1], k);
    }
  }

  /** The layout with every move made, against the one before the first of them. */
  ghost predicate AllMade(l: Layout, l': Layout, moves: seq<Move>) {
    Shifted(l, l', Moving(l.walked, moves), Deltas(moves))
  }

  lemma SharedInside(shapes: seq<Shape>, pageId: Id, w: Walked, a: Shape, b: Shape, x: Id)
    requires IsTree(EnterShape, w, shapes, pageId) && OnlyListed(w, pageId) && a in w.order && b in w.order
    requires x in Inward(w.order, a.id) && x in Inward(w.order, b.id)
    ensures a.id in Inward(w.order, b.id) || b.id in Inward(w.order, a.id)
  {
    assert Hangs(EnterShape, a, w, pageId);
    if x != a.id {
      var s := DescendIsSound(EnterShape, shapes, pageId, w, a.id, 0, x);
      NestedOrApart(EnterShape, shapes, pageId, w, a, b, s, w.depth[x]);
    }
  }

  /** What one move carries no other does. */
  lemma OneMover(shapes: seq<Shape>, pageId: Id, moves: seq<Move>, i: nat, j: nat, x: Id)
    requires UniqueIds(shapes, pageId) && Independent(ComputeLayout(shapes, pageId), moves) && i < |moves| && j < |moves|
    requires var order := ComputeLayout(shapes, pageId).walked.order; x in Inward(order, moves[i].id) && x in Inward(order, moves[j].id)
    ensures i == j
  {
    var w := ComputeLayout(shapes, pageId).walked;
    WalkedPageIsTree(EnterShape, shapes, pageId);
    WalkedPageIsComplete(EnterShape, shapes, pageId);
    var a := ListedShape(w.order, moves[i].id);
    var b := ListedShape(w.order, moves[j].id);
    SharedInside(shapes, pageId, w, a, b, x);
  }

  lemma MoverIs(shapes: seq<Shape>, pageId: Id, moves: seq<Move>, i: nat, x: Id)
    requires UniqueIds(shapes, pageId) && Independent(ComputeLayout(shapes, pageId), moves) && i < |moves|
    requires x in Inward(ComputeLayout(shapes, pageId).walked.order, moves[i].id)
    ensures Mover(ComputeLayout(shapes, pageId).walked.order, moves, x) == i + 1
  {
    var order := ComputeLayout(shapes, pageId).walked.order;
    var n := Mover(order, moves, x);
    MoverMeans(order, moves, x);
    if n == 0 {
      assert false;
    }
    OneMover(shapes, pageId, moves, i, n - 1, x);
  }

  /* ------------------------------------------------------------- one move after another */

  /** The move as translated by an older layout is the one a fresh layout would make: rotations do not change. */
  lemma SameTranslation(shapes: seq<Shape>, l: Layout, l': Layout, s: Shape, dx: real, dy: real)
    requires TurnOf(l'.walked, s.parentId) == TurnOf(l.walked, s.parentId)
    ensures ApplyMove(shapes, l, s, dx, dy) == ApplyMove(shapes, l', s, dx, dy)
  {
  }

  lemma TurnsStand(w: Walked, w': Walked, carriers: map<Id, nat>, deltas: seq<Point>, id: Id)
    requires FramesCarried(w, w', carriers, deltas)
    ensures TurnOf(w', id) == TurnOf(w, id) && FrameAt(w', id).turn == FrameAt(w, id).turn
  {
    SameFind(w.order, w'.order, id);
  }

  lemma {:induction false} FindInRecords(shapes: seq<Shape>, pageId: Id, s: Shape)
    requires UniqueIds(shapes, pageId) && s in shapes
    ensures Find(shapes, s.id) == Some(s)
  {
    IsListed(shapes, s);
  }

  lemma TurnsAreKept(shapes: seq<Shape>, l: Layout, s: Shape, dx: real, dy: real)
    requires UnitTurns(shapes)
    ensures UnitTurns(ApplyMove(shapes, l, s, dx, dy))
  {
    var after := ApplyMove(shapes, l, s, dx, dy);
    forall x | x in after
      ensures Unit(x.turn)
    {
      var i :| 0 <= i < |after| && after[i] == x;
      assert shapes[i] in shapes;
    }
  }

  lemma CarriedTwice(f: Frame, d: Point)
    ensures CarriedFrame(CarriedFrame(f, d.x, d.y), 0.0, 0.0) == CarriedFrame(f, d.x, d.y)
    ensures CarriedFrame(CarriedFrame(f, 0.0, 0.0), d.x, d.y) == CarriedFrame(f, d.x, d.y)
  {
  }

  ghost predicate FramesMade(w: Walked, w': Walked, moves: seq<Move>) {
    FramesCarried(w, w', Moving(w, moves), Deltas(moves))
  }

  lemma NoFramesMade(w: Walked)
    ensures FramesMade(w, w, [])
  {
    forall k | k in w.frame
      ensures CarriedFrame(w.frame[k], 0.0, 0.0) == w.frame[k]
    {
      CarriedNowhere(w.frame[k]);
    }
  }

  lemma LastMover(order: seq<Shape>, moves: seq<Move>, m: Move, k: Id)
    ensures Mover(order, moves + [m], k) == if k in Inward(order, m.id) then |moves| + 1 else Mover(order, moves, k)
    ensures Deltas(moves + [m]) == Deltas(moves) + [Made(m.dx, m.dy)]
  {
    assert (moves + [m])[..|moves|] == moves;
  }

  /** One frame after the next move. */
  lemma NextFrame(w: Walked, w1: Walked, w2: Walked, moves: seq<Move>, m: Move, k: Id)
    requires FramesMade(w, w1, moves) && FramesCarried(w1, w2, MovingOne(w1.order, m.id), [STILL, Made(m.dx, m.dy)]) && k in w.frame
    requires Inward(w1.order, m.id) == Inward(w.order, m.id) && (k in Inward(w.order, m.id) ==> Mover(w.order, moves, k) == 0)
    ensures var n, deltas := Mover(w.order, moves + [m], k), Deltas(moves + [m]);
            n < |deltas| && w2.frame[k] == CarriedFrame(w.frame[k], deltas[n].x, deltas[n].y)
  {
    LastMover(w.order, moves, m, k);
    MoverMeans(w.order, moves, k);
    CarriedTwice(w.frame[k], Deltas(moves)[Mover(w.order, moves, k)]);
    CarriedTwice(w.frame[k], Made(m.dx, m.dy));
  }

  lemma NextFrames(w: Walked, w1: Walked, w2: Walked, moves: seq<Move>, m: Move)
    requires FramesMade(w, w1, moves) && FramesCarried(w1, w2, MovingOne(w1.order, m.id), [STILL, Made(m.dx, m.dy)])
    requires forall k :: k in w.frame && k in Inward(w.order, m.id) ==> Mover(w.order, moves, k) == 0
    ensures FramesMade(w, w2, moves + [m])
  {
    SameDescend(w.order, w1.order, m.id, 0);
    forall k | k in w.frame
      ensures var n, deltas := Mover(w.order, moves + [m], k), Deltas(moves + [m]);
              n < |deltas| && w2.frame[k] == CarriedFrame(w.frame[k], deltas[n].x, deltas[n].y)
    {
      NextFrame(w, w1, w2, moves, m, k);
    }
    SameRecordsTwice(w.order, w1.order, w2.order);
  }

  lemma SameRecordsTwice(a: seq<Shape>, b: seq<Shape>, c: seq<Shape>)
    requires SameRecords(a, b) && SameRecords(b, c)
    ensures SameRecords(a, c)
  {
    forall i | 0 <= i < |a|
      ensures SameRecord(a[i], c[i])
    {
      assert SameRecord(a[i], b[i]) && SameRecord(b[i], c[i]);
    }
  }

  lemma {:induction false} PrefixIsIndependent(l: Layout, moves: seq<Move>)
    requires Independent(l, moves) && moves != []
    ensures Independent(l, moves[..|moves| - 1])
  {
  }

  lemma ListedRecord(shapes: seq<Shape>, pageId: Id, id: Id) returns (s: Shape)
    requires UniqueIds(shapes, pageId) && Lists(ComputeLayout(shapes, pageId).walked.order, id)
    ensures s in ComputeLayout(shapes, pageId).walked.order && s.id == id && Find(shapes, id) == Some(s)
  {
    var w := WalkPage(EnterShape, shapes, pageId);
    WalkedPageIsTree(EnterShape, shapes, pageId);
    s := ListedShape(w.order, id);
    assert Hangs(EnterShape, s, w, pageId);
    FindInRecords(shapes, pageId, s);
  }

  lemma StillListed(order: seq<Shape>, order': seq<Shape>, id: Id)
    requires SameRecords(order, order') && Lists(order, id)
    ensures Lists(order', id)
  {
    SameFind(order, order', id);
  }

  /** One move, turned by any layout in which the shape's container is turned as it is now. */
  lemma OneMove(shapes: seq<Shape>, pageId: Id, stale: Layout, m: Move)
    requires UniqueIds(shapes, pageId) && UnitTurns(shapes) && Lists(ComputeLayout(shapes, pageId).walked.order, m.id)
    requires var w := ComputeLayout(shapes, pageId).walked;
             && (forall k :: TurnOf(w, k) == TurnOf(stale.walked, k))
             && (forall s :: s in w.order && s.id == m.id ==> Steered(w, s))
    ensures var shapes' := ApplyOne(shapes, stale, m);
            && UniqueIds(shapes', pageId) && UnitTurns(shapes') && SameRecords(shapes, shapes')
            && MovedBy(ComputeLayout(shapes, pageId), ComputeLayout(shapes', pageId), m.id, Made(m.dx, m.dy).x, Made(m.dx, m.dy).y)
  {
    var s := ListedRecord(shapes, pageId, m.id);
    SameTranslation(shapes, stale, ComputeLayout(shapes, pageId), s, m.dx, m.dy);
    MoveIsMade(shapes, pageId, s, m.dx, m.dy);
    MovesKeepIds(shapes, pageId, stale, s, m.dx, m.dy);
    TurnsAreKept(shapes, stale, s, m.dx, m.dy);
  }

  /** The records after the moves, and the frames they lead to. */
  ghost predicate AllWritten(shapes: seq<Shape>, pageId: Id, shapes': seq<Shape>, moves: seq<Move>) {
    && UniqueIds(shapes', pageId) && UnitTurns(shapes') && SameRecords(shapes, shapes')
    && FramesMade(ComputeLayout(shapes, pageId).walked, ComputeLayout(shapes', pageId).walked, moves)
  }

  lemma SteeredStays(w: Walked, w1: Walked, moves: seq<Move>, m: Move)
    requires FramesMade(w, w1, moves) && forall s :: s in w.order && s.id == m.id ==> Steered(w, s)
    ensures forall k :: TurnOf(w1, k) == TurnOf(w, k)
    ensures forall s :: s in w1.order && s.id == m.id ==> Steered(w1, s)
  {
    forall k
      ensures TurnOf(w1, k) == TurnOf(w, k) && FrameAt(w1, k).turn == FrameAt(w, k).turn
    {
      TurnsStand(w, w1, Moving(w, moves), Deltas(moves), k);
    }
    forall s | s in w1.order && s.id == m.id
      ensures Steered(w1, s)
    {
      var i :| 0 <= i < |w1.order| && w1.order[i] == s;
      assert SameRecord(w.order[i], s) && w.order[i] in w.order;
      assert Steered(w, w.order[i]);
    }
  }

  lemma LastMove(shapes: seq<Shape>, pageId: Id, moves: seq<Move>)
    requires UniqueIds(shapes, pageId) && moves != [] && Independent(ComputeLayout(shapes, pageId), moves)
    requires var before := moves[..|moves| - 1]; AllWritten(shapes, pageId, ApplyMoves(shapes, ComputeLayout(shapes, pageId), before), before)
    ensures AllWritten(shapes, pageId, ApplyMoves(shapes, ComputeLayout(shapes, pageId), moves), moves)
  {
    var l, n := ComputeLayout(shapes, pageId), |moves| - 1;
    var before, m := moves[..n], moves[n];
    var shapes1 := ApplyMoves(shapes, l, before);
    assert before + [m] == moves;
    EarlierMovers(shapes, pageId, moves);
    OneMoreWritten(shapes, pageId, l, shapes1, before, m);
  }

  /** One more move, turned by the layout from before all of them. */
  lemma OneMoreWritten(shapes: seq<Shape>, pageId: Id, l: Layout, shapes1: seq<Shape>, before: seq<Move>, m: Move)
    requires l == ComputeLayout(shapes, pageId) && AllWritten(shapes, pageId, shapes1, before)
    requires Lists(l.walked.order, m.id) && forall s :: s in l.walked.order && s.id == m.id ==> Steered(l.walked, s)
    requires forall k :: k in Inward(l.walked.order, m.id) ==> Mover(l.walked.order, before, k) == 0
    ensures AllWritten(shapes, pageId, ApplyOne(shapes1, l, m), before + [m])
  {
    var w1 := ComputeLayout(shapes1, pageId).walked;
    StillListed(l.walked.order, w1.order, m.id);
    SteeredStays(l.walked, w1, before, m);
    OneMove(shapes1, pageId, l, m);
    SameRecordsTwice(shapes, shapes1, ApplyOne(shapes1, l, m));
    NextFrames(l.walked, w1, ComputeLayout(ApplyOne(shapes1, l, m), pageId).walked, before, m);
  }

  /** What the last move carries no earlier one does. */
  lemma EarlierMovers(shapes: seq<Shape>, pageId: Id, moves: seq<Move>)
    requires UniqueIds(shapes, pageId) && moves != [] && Independent(ComputeLayout(shapes, pageId), moves)
    ensures var order, before, id := ComputeLayout(shapes, pageId).walked.order, moves[..|moves| - 1], moves[|moves| - 1].id;
            forall k :: k in Inward(order, id) ==> Mover(order, before, k) == 0
  {
    var order, before := ComputeLayout(shapes, pageId).walked.order, moves[..|moves| - 1];
    forall k | k in Inward(order, moves[|moves| - 1].id)
      ensures Mover(order, before, k) == 0
    {
      MoverMeans(order, before, k);
      if Mover(order, before, k) != 0 {
        OneMover(shapes, pageId, moves, Mover(order, before, k) - 1, |moves| - 1, k);
      }
    }
  }

  lemma {:induction false} AllCarried(shapes: seq<Shape>, pageId: Id, moves: seq<Move>)
    requires UniqueIds(shapes, pageId) && UnitTurns(shapes) && Independent(ComputeLayout(shapes, pageId), moves)
    ensures AllWritten(shapes, pageId, ApplyMoves(shapes, ComputeLayout(shapes, pageId), moves), moves)
    decreases |moves|
  {
    if moves == [] {
      NoFramesMade(ComputeLayout(shapes, pageId).walked);
    } else {
      PrefixIsIndependent(ComputeLayout(shapes, pageId), moves);
      AllCarried(shapes, pageId, moves[..|moves| - 1]);
      LastMove(shapes, pageId, moves);
    }
  }

  /** Every box as it will be once all moves are written. */
  function AllForeseen(shapes: seq<Shape>, l: Layout, moves: seq<Move>): map<Id, Rect> {
    assert forall k :: CarrierOf(Moving(l.walked, moves), k) < |Deltas(moves)| by {
      forall k
        ensures CarrierOf(Moving(l.walked, moves), k) < |Deltas(moves)|
      {
        MoverMeans(l.walked.order, moves, k);
      }
    }
    Forecast(shapes, l.walked, Moving(l.walked, moves), Deltas(moves))
  }

  /**
   * Shapes moved together, at any depths and under any rotations, all land: after the last record has been
   * written, every frame under a moved shape has been carried by exactly that shape's move and no other frame has
   * changed, and the boxes are those foreseen from that. Turning every delta by the layout from before the first
   * move is right.
   */
  lemma MovesAreRealised(shapes: seq<Shape>, pageId: Id, moves: seq<Move>)
    requires UniqueIds(shapes, pageId) && UnitTurns(shapes) && Independent(ComputeLayout(shapes, pageId), moves)
    ensures var l := ComputeLayout(shapes, pageId);
            var shapes' := ApplyMoves(shapes, l, moves);
            && UniqueIds(shapes', pageId) && UnitTurns(shapes') && SameRecords(shapes, shapes')
            && AllMade(l, ComputeLayout(shapes', pageId), moves)
            && ComputeLayout(shapes', pageId).bounds == AllForeseen(shapes, l, moves)
  {
    var l := ComputeLayout(shapes, pageId);
    var shapes' := ApplyMoves(shapes, l, moves);
    AllCarried(shapes, pageId, moves);
    LayoutFollows(shapes, shapes', pageId, Moving(l.walked, moves), Deltas(moves));
    ForecastIsExact(shapes, shapes', pageId, Moving(l.walked, moves), Deltas(moves));
  }

  /* ------------------------------------------------------------------- what lands rigidly */

  /** The member's box goes with its own move: nothing it is made from is moved otherwise. */
  ghost predicate Rigid(l: Layout, moves: seq<Move>, i: nat)
    requires i < |moves|
  {
    CourseOf(l.walked.order, Moving(l.walked, moves), moves[i].id) == Goes(i + 1)
  }

  lemma RigidLands(l: Layout, l': Layout, moves: seq<Move>, i: nat)
    requires AllMade(l, l', moves) && i < |moves| && Rigid(l, moves, i) && moves[i].id in l.bounds
    ensures var d := Made(moves[i].dx, moves[i].dy);
            moves[i].id in l'.bounds && l'.bounds[moves[i].id] == Shift(l.bounds[moves[i].id], d.x, d.y)
  {
    var courses := Courses(l.walked.order, Moving(l.walked, moves));
    assert Follows(l.bounds[moves[i].id], l'.bounds[moves[i].id], courses[moves[i].id], Deltas(moves));
  }

  /** A box goes with the move it is under, or stays. */
  lemma BoxLands(l: Layout, l': Layout, moves: seq<Move>, s: Shape)
    requires AllMade(l, l', moves) && Listed(l.walked.order) && s in l.walked.order && s.kind == Box && s.id in l.bounds && s.id in l.walked.frame
    ensures var d := Deltas(moves)[Mover(l.walked.order, moves, s.id)];
            s.id in l'.bounds && l'.bounds[s.id] == Shift(l.bounds[s.id], d.x, d.y)
  {
    BoxFollows(l, l', Moving(l.walked, moves), Deltas(moves), s);
  }

  /** Boxes are always rigid. */
  lemma BoxIsRigid(shapes: seq<Shape>, pageId: Id, moves: seq<Move>, i: nat, s: Shape)
    requires UniqueIds(shapes, pageId) && Independent(ComputeLayout(shapes, pageId), moves) && i < |moves|
    requires s in ComputeLayout(shapes, pageId).walked.order && s.id == moves[i].id && s.kind == Box && s.id in ComputeLayout(shapes, pageId).bounds
    ensures Rigid(ComputeLayout(shapes, pageId), moves, i)
  {
    var l := ComputeLayout(shapes, pageId);
    var carriers := Moving(l.walked, moves);
    ListedHaveFrames(shapes, pageId);
    MoverIs(shapes, pageId, moves, i, s.id);
    SelfContainedGoes(l.walked.order, carriers, {s.id}, i + 1);
    BoxHasCourse(shapes, pageId, carriers, s);
  }

  lemma BoxHasCourse(shapes: seq<Shape>, pageId: Id, carriers: map<Id, nat>, s: Shape)
    requires UniqueIds(shapes, pageId) && s in ComputeLayout(shapes, pageId).walked.order
    ensures s.id in Courses(ComputeLayout(shapes, pageId).walked.order, carriers)
  {
    CoursesAreListed(ComputeLayout(shapes, pageId).walked.order, carriers);
  }

  /** So is a group, if no arrow under it is bound to anything elsewhere. */
  lemma WholeIsRigid(shapes: seq<Shape>, pageId: Id, moves: seq<Move>, i: nat)
    requires UniqueIds(shapes, pageId) && Independent(ComputeLayout(shapes, pageId), moves) && i < |moves|
    requires BoundWithin(ComputeLayout(shapes, pageId).walked.order, moves[i].id)
    ensures Rigid(ComputeLayout(shapes, pageId), moves, i)
  {
    var l := ComputeLayout(shapes, pageId);
    var order, region, carriers := l.walked.order, Inward(l.walked.order, moves[i].id), Moving(l.walked, moves);
    ListedHaveFrames(shapes, pageId);
    var s := ListedShape(order, moves[i].id);
    forall x | x in order && x.id in region
      ensures CarrierOf(carriers, x.id) == i + 1
    {
      MoverIs(shapes, pageId, moves, i, x.id);
    }
    WholeIsSelfContained(shapes, pageId, s, carriers, i + 1);
    SelfContainedGoes(order, carriers, region, i + 1);
    BoxHasCourse(shapes, pageId, carriers, s);
  }

  lemma {:induction false} WritesKeepIds(shapes: seq<Shape>, pageId: Id, l: Layout, moves: seq<Move>)
    requires UniqueIds(shapes, pageId)
    ensures UniqueIds(ApplyMoves(shapes, l, moves), pageId)
    decreases |moves|
  {
    if moves != [] {
      var m, before := moves[|moves| - 1], ApplyMoves(shapes, l, moves[..|moves| - 1]);
      WritesKeepIds(shapes, pageId, l, moves[..|moves| - 1]);
      var record := Find(before, m.id);
      if record.Some? {
        MovesKeepIds(before, pageId, l, record.value, m.dx, m.dy);
      }
    }
  }

  /* --------------------------------------------------- arranged blocks, once written */

  function IdsOf(moves: seq<Move>): seq<Id>
    decreases |moves|
  {
    if moves == [] then [] else IdsOf(moves[..|moves| - 1]) + [moves[|moves| - 1].id]
  }

  lemma {:induction false} OutsideKin(l: Layout, pageId: Id, moves: seq<Move>, k: Id, i: nat)
    requires k !in KinOf(l, pageId, IdsOf(moves)) && i < |moves|
    ensures k !in Kin(l, pageId, moves[i].id)
    decreases |moves|
  {
    assert IdsOf(moves)[..|IdsOf(moves)| - 1] == IdsOf(moves[..|moves| - 1]);
    if i < |moves| - 1 {
      OutsideKin(l, pageId, moves[..|moves| - 1], k, i);
    }
  }

  lemma {:induction false} SameKin(l: Layout, l': Layout, pageId: Id, ids: seq<Id>)
    requires SameRecords(l.walked.order, l'.walked.order)
    ensures KinOf(l', pageId, ids) == KinOf(l, pageId, ids)
    decreases |ids|
  {
    if ids != [] {
      var last := ids[|ids| - 1];
      SameKin(l, l', pageId, ids[..|ids| - 1]);
      SameDescend(l.walked.order, l'.walked.order, last, 0);
      SameAncestors(l.walked.order, l'.walked.order, pageId, last, DEPTH_CAP);
    }
  }

  lemma {:induction false} SameBlocking(order: seq<Shape>, order': seq<Shape>, b: map<Id, Rect>, b': map<Id, Rect>, skip: set<Id>)
    requires SameRecords(order, order') && b'.Keys == b.Keys
    requires forall s :: s in order && s.kind == Box && s.id !in skip && s.id in b ==> b'[s.id] == b[s.id]
    ensures Blocking(order', b', skip) == Blocking(order, b, skip)
    decreases |order|
  {
    if order != [] {
      var last := order[|order| - 1];
      assert last in order && SameRecord(last, order'[|order| - 1]);
      SameBlocking(order[..|order| - 1], order'[..|order| - 1], b, b', skip);
    }
  }

  /** What was in the way of the moving shapes stands exactly where it stood. */
  lemma BlockersStand(l: Layout, l': Layout, pageId: Id, moves: seq<Move>)
    requires AllMade(l, l', moves) && Listed(l.walked.order) && forall s :: s in l.walked.order ==> s.id in l.walked.frame
    ensures Blockers(l', pageId, IdsOf(moves)) == Blockers(l, pageId, IdsOf(moves))
  {
    var skip := KinOf(l, pageId, IdsOf(moves));
    SameKin(l, l', pageId, IdsOf(moves));
    forall s | s in l.walked.order && s.kind == Box && s.id !in skip && s.id in l.bounds
      ensures l'.bounds[s.id] == l.bounds[s.id]
    {
      MoverMeans(l.walked.order, moves, s.id);
      if Mover(l.walked.order, moves, s.id) != 0 {
        OutsideKin(l, pageId, moves, s.id, Mover(l.walked.order, moves, s.id) - 1);
        assert false;
      }
      BoxLands(l, l', moves, s);
      ShiftedNowhere(l.bounds[s.id]);
    }
    SameBlocking(l.walked.order, l'.walked.order, l.bounds, l'.bounds, skip);
  }

  /** The members as the layout sees them. */
  ghost predicate ItemsOf(l: Layout, items: seq<Item>, moves: seq<Move>) {
    MovesOf(items, moves) && forall i :: 0 <= i < |items| ==> items[i].id in l.bounds && items[i].bounds == l.bounds[items[i].id]
  }

  /** A planned box and the box found afterwards. */
  lemma LandsAsPlanned(item: Item, m: Move)
    ensures Arrived(Shift(item.bounds, Made(m.dx, m.dy).x, Made(m.dx, m.dy).y), After(item, m))
  {
  }

  /** Two boxes each within the smallest move of where they were planned are as far apart, but for twice that. */
  lemma NearlyApart(a: Rect, a': Rect, b: Rect, b': Rect, gap: real)
    requires Arrived(a', a) && Arrived(b', b) && GapBetween(a, b) >= gap && gap >= SPACING_TOLERANCE
    ensures GapBetween(a', b') >= gap - 2.0 * SMALLEST_MOVE
    ensures OverlapArea(a', b') == 0.0
  {
    assert GapBetween(a', b') >= gap - 2.0 * SMALLEST_MOVE;
    FarIsDisjoint(a', b', gap - 2.0 * SMALLEST_MOVE);
  }

  /**
   * An arrangement planned on the layout is the arrangement found after writing it: rigid members planned a gap apart
   * are found within the spacing tolerance of it, and rigid members planned clear of every blocker are found so.
   */
  lemma ArrangementIsRealised(shapes: seq<Shape>, pageId: Id, items: seq<Item>, moves: seq<Move>, gap: real)
    requires UniqueIds(shapes, pageId) && UnitTurns(shapes) && Independent(ComputeLayout(shapes, pageId), moves)
    requires ItemsOf(ComputeLayout(shapes, pageId), items, moves) && gap >= SPACING_TOLERANCE
    ensures var l := ComputeLayout(shapes, pageId);
            var after := ComputeLayout(ApplyMoves(shapes, l, moves), pageId);
            && AllMade(l, after, moves) && Blockers(after, pageId, IdsOf(moves)) == Blockers(l, pageId, IdsOf(moves))
            && PairsRealised(l, after, items, moves, gap) && ClearancesRealised(l, after, items, moves, Blockers(l, pageId, IdsOf(moves)), gap)
  {
    var l := ComputeLayout(shapes, pageId);
    var after := ComputeLayout(ApplyMoves(shapes, l, moves), pageId);
    ListedHaveFrames(shapes, pageId);
    MovesAreRealised(shapes, pageId, moves);
    BlockersStand(l, after, pageId, moves);
    forall i, j | 0 <= i < |items| && 0 <= j < |items| && PlannedApart(l, items, moves, i, j, gap)
      ensures Spaced(after, items[i].id, items[j].id, gap)
    {
      PairIsRealised(l, after, items, moves, i, j, gap);
    }
    forall i | 0 <= i < |items| && Rigid(l, moves, i) && Clear(Blockers(l, pageId, IdsOf(moves)), After(items[i], moves[i]), gap)
      ensures StandsClear(after, items[i].id, Blockers(after, pageId, IdsOf(moves)), gap)
    {
      ClearIsRealised(l, after, items, moves, i, Blockers(l, pageId, IdsOf(moves)), gap);
    }
  }

  ghost predicate Spaced(l: Layout, a: Id, b: Id, gap: real) {
    && a in l.bounds && b in l.bounds && OverlapArea(l.bounds[a], l.bounds[b]) == 0.0
    && GapBetween(l.bounds[a], l.bounds[b]) >= gap - SPACING_TOLERANCE
  }

  ghost predicate StandsClear(l: Layout, id: Id, blockers: seq<Rect>, gap: real) {
    id in l.bounds && forall r :: r in blockers ==>
      OverlapArea(l.bounds[id], r) == 0.0 && GapBetween(l.bounds[id], r) >= gap - SPACING_TOLERANCE
  }

  ghost predicate PlannedApart(l: Layout, items: seq<Item>, moves: seq<Move>, i: nat, j: nat, gap: real)
    requires |items| == |moves| && i < |items| && j < |items|
  {
    Rigid(l, moves, i) && Rigid(l, moves, j) && GapBetween(After(items[i], moves[i]), After(items[j], moves[j])) >= gap
  }

  /** Any two rigid members planned the gap apart are found so. */
  ghost predicate PairsRealised(l: Layout, after: Layout, items: seq<Item>, moves: seq<Move>, gap: real)
    requires |items| == |moves|
  {
    forall i, j :: 0 <= i < |items| && 0 <= j < |items| && PlannedApart(l, items, moves, i, j, gap) ==>
      Spaced(after, items[i].id, items[j].id, gap)
  }

  /** Any rigid member planned clear of the blockers is found so. */
  ghost predicate ClearancesRealised(l: Layout, after: Layout, items: seq<Item>, moves: seq<Move>, blockers: seq<Rect>, gap: real)
    requires |items| == |moves|
  {
    forall i :: 0 <= i < |items| && Rigid(l, moves, i) && Clear(blockers, After(items[i], moves[i]), gap) ==> StandsClear(after, items[i].id, blockers, gap)
  }

  lemma PairIsRealised(l: Layout, after: Layout, items: seq<Item>, moves: seq<Move>, i: nat, j: nat, gap: real)
    requires AllMade(l, after, moves) && ItemsOf(l, items, moves) && i < |items| && j < |items| && gap >= SPACING_TOLERANCE
    requires Rigid(l, moves, i) && Rigid(l, moves, j)
    requires GapBetween(After(items[i], moves[i]), After(items[j], moves[j])) >= gap
    ensures Spaced(after, items[i].id, items[j].id, gap)
  {
    RigidLands(l, after, moves, i);
    RigidLands(l, after, moves, j);
    LandsAsPlanned(items[i], moves[i]);
    LandsAsPlanned(items[j], moves[j]);
    NearlyApart(After(items[i], moves[i]), after.bounds[items[i].id], After(items[j], moves[j]), after.bounds[items[j].id], gap);
  }

  lemma ClearIsRealised(l: Layout, after: Layout, items: seq<Item>, moves: seq<Move>, i: nat, blockers: seq<Rect>, gap: real)
    requires AllMade(l, after, moves) && ItemsOf(l, items, moves) && i < |items| && gap >= SPACING_TOLERANCE && Rigid(l, moves, i)
    requires Clear(blockers, After(items[i], moves[i]), gap)
    ensures StandsClear(after, items[i].id, blockers, gap)
  {
    RigidLands(l, after, moves, i);
    LandsAsPlanned(items[i], moves[i]);
    forall r | r in blockers
      ensures OverlapArea(after.bounds[items[i].id], r) == 0.0 && GapBetween(after.bounds[items[i].id], r) >= gap - SPACING_TOLERANCE
    {
      PlacerAndVerifierAgree(After(items[i], moves[i]), r, gap);
      NearlyApart(After(items[i], moves[i]), after.bounds[items[i].id], r, r, gap);
    }
  }
}
