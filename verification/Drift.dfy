/**
 * What becomes of the boxes when frames are carried. Boxes go with their own frame; an arrow follows what it is bound
 * to and a group what it contains, so their boxes go with a carrier only if everything they are made from does.
 */
module Drift {
  import opened Wrappers
  import opened Geometry
  import opened Transforms
  import opened LayoutTree
  import opened LayoutBounds

  /** A box goes with a carrier (0: it stays), or is made from things that go with different ones. */
  datatype Course = Goes(carrier: nat) | Loose

  /** What carries a shape's frame; 0 for nothing. */
  function CarrierOf(carriers: map<Id, nat>, id: Id): nat {
    if id in carriers then carriers[id] else 0
  }

  /* --------------------------------------------------- read off the records alone */

  function BoxCourses(order: seq<Shape>, carriers: map<Id, nat>): map<Id, Course>
    decreases |order|
  {
    if order == [] then map[]
    else
      var front, s := BoxCourses(order[..|order| - 1], carriers), order[|order| - 1];
      if s.kind == Box then front[s.id := Goes(CarrierOf(carriers, s.id))] else front
  }

  function EndCourse(c: map<Id, Course>, tie: Option<Tie>, own: nat): Course
    requires tie.Some? ==> tie.value.toId in c
  {
    if tie.Some? then c[tie.value.toId] else Goes(own)
  }

  /** Both terminals go with the same carrier, or the arrow is loose. */
  function ArrowCourse(c: map<Id, Course>, known: set<Id>, line: Line, own: nat): Course
    requires known <= c.Keys
  {
    var tail, head := EndCourse(c, TieAt(known, line.ties, Tail), own), EndCourse(c, TieAt(known, line.ties, Head), own);
    if tail == head then tail else Loose
  }

  function ArrowCourses(order: seq<Shape>, carriers: map<Id, nat>, c: map<Id, Course>): map<Id, Course>
    decreases |order|
  {
    if order == [] then c
    else
      var front, s := ArrowCourses(order[..|order| - 1], carriers, c), order[|order| - 1];
      if s.kind.Arrow? then front[s.id := ArrowCourse(front, front.Keys, s.kind.line, CarrierOf(carriers, s.id))] else front
  }

  /** What all of these that have a course agree on, if there are any. */
  function Agreed(list: seq<Shape>, c: map<Id, Course>): Option<Course>
    decreases |list|
  {
    if list == [] then None
    else
      var front, s := Agreed(list[..|list| - 1], c), list[|list| - 1];
      if s.id !in c then front
      else if front.None? || front.value == c[s.id] then Some(c[s.id])
      else Some(Loose)
  }

  function GroupCourse(order: seq<Shape>, carriers: map<Id, nat>, c: map<Id, Course>, g: Shape): Course {
    var agreed := Agreed(Children(order, g.id), c);
    if agreed.Some? then agreed.value else Goes(CarrierOf(carriers, g.id))
  }

  function GroupCourses(order: seq<Shape>, carriers: map<Id, nat>, n: nat, c: map<Id, Course>): map<Id, Course>
    requires n <= |order|
    decreases n
  {
    if n == 0 then c
    else
      var s := order[n - 1];
      GroupCourses(order, carriers, n - 1, if s.kind == Group then c[s.id := GroupCourse(order, carriers, c, s)] else c)
  }

  function Courses(order: seq<Shape>, carriers: map<Id, nat>): map<Id, Course> {
    GroupCourses(order, carriers, |order|, ArrowCourses(order, carriers, BoxCourses(order, carriers)))
  }

  /* --------------------------------------------------------- and borne out by the boxes */

  /** The second frame is the first one carried by `d`, in all that boxes are made from. */
  ghost predicate Carries(how: Boxing, f: Frame, f': Frame, d: Point) {
    && (forall r :: how.measure(f', r) == Shift(how.measure(f, r), d.x, d.y))
    && (forall p :: how.place(f', p) == Nudged(how.place(f, p), d.x, d.y))
    && f'.matrix.origin == Nudged(f.matrix.origin, d.x, d.y)
  }

  /** Looked at from a point that moves along, a moved box is left at the point that moved along. */
  ghost predicate EdgesFollow(how: Boxing) {
    forall r, p, dx, dy :: how.edge(Shift(r, dx, dy), Nudged(p, dx, dy)) == Nudged(how.edge(r, p), dx, dy)
  }

  ghost predicate CarriedOne(how: Boxing, w: Walked, w': Walked, carriers: map<Id, nat>, deltas: seq<Point>, id: Id) {
    CarrierOf(carriers, id) < |deltas| && Carries(how, FrameAt(w, id), FrameAt(w', id), deltas[CarrierOf(carriers, id)])
  }

  /** The same shapes in the same order, each one's frame carried by its carrier's delta. */
  ghost predicate Drifted(how: Boxing, w: Walked, w': Walked, carriers: map<Id, nat>, deltas: seq<Point>) {
    && EdgesFollow(how) && SameRecords(w.order, w'.order)
    && forall i :: 0 <= i < |w.order| ==> CarriedOne(how, w, w', carriers, deltas, w.order[i].id)
  }

  /** A box that goes with a carrier is moved by that carrier's delta. */
  ghost predicate Follows(box: Rect, box': Rect, course: Course, deltas: seq<Point>) {
    course.Goes? ==> course.carrier < |deltas| && box' == Shift(box, deltas[course.carrier].x, deltas[course.carrier].y)
  }

  ghost predicate AllFollow(b: map<Id, Rect>, b': map<Id, Rect>, c: map<Id, Course>, deltas: seq<Point>) {
    b'.Keys == b.Keys == c.Keys && forall k :: k in c ==> Follows(b[k], b'[k], c[k], deltas)
  }

  lemma FollowOneMore(b: map<Id, Rect>, b': map<Id, Rect>, c: map<Id, Course>, deltas: seq<Point>, k: Id, box: Rect, box': Rect, course: Course)
    requires AllFollow(b, b', c, deltas) && Follows(box, box', course, deltas)
    ensures AllFollow(b[k := box], b'[k := box'], c[k := course], deltas)
  {
  }

  lemma {:induction false} BoxesFollow(how: Boxing, w: Walked, w': Walked, carriers: map<Id, nat>, deltas: seq<Point>, n: nat)
    requires Drifted(how, w, w', carriers, deltas) && n <= |w.order|
    ensures AllFollow(ShapeBoxes(how, w, w.order[..n]), ShapeBoxes(how, w', w'.order[..n]), BoxCourses(w.order[..n], carriers), deltas)
    decreases n
  {
    if n > 0 {
      BoxesFollow(how, w, w', carriers, deltas, n - 1);
      assert w.order[..n][..n - 1] == w.order[..n - 1] && w'.order[..n][..n - 1] == w'.order[..n - 1];
      assert SameRecord(w.order[n - 1], w'.order[n - 1]) && CarriedOne(how, w, w', carriers, deltas, w.order[n - 1].id);
    }
  }

  lemma CentreFollows(r: Rect, dx: real, dy: real)
    ensures Centre(Shift(r, dx, dy)) == Nudged(Centre(r), dx, dy)
  {
  }

  lemma AnchoredFollows(r: Rect, anchor: Point, dx: real, dy: real)
    ensures Anchored(Shift(r, dx, dy), anchor) == Nudged(Anchored(r, anchor), dx, dy)
  {
  }

  lemma SpanFollows(p: Point, q: Point, bend: real, dx: real, dy: real)
    ensures Spanned(Nudged(p, dx, dy), Nudged(q, dx, dy), bend) == Shift(Spanned(p, q, bend), dx, dy)
  {
  }

  /** A terminal that goes with a carrier, seen from another that does. */
  lemma EndFollows(how: Boxing, b: map<Id, Rect>, b': map<Id, Rect>, tie: Option<Tie>, stored: Point, toward: Point, d: Point)
    requires EdgesFollow(how) && (tie.Some? ==> tie.value.toId in b && tie.value.toId in b' && b'[tie.value.toId] == Shift(b[tie.value.toId], d.x, d.y))
    ensures EndPoint(how, b', tie, Nudged(stored, d.x, d.y), Nudged(toward, d.x, d.y)) == Nudged(EndPoint(how, b, tie, stored, toward), d.x, d.y)
    ensures Aim(b', tie, Nudged(stored, d.x, d.y)) == Nudged(Aim(b, tie, stored), d.x, d.y)
  {
    if tie.Some? {
      var r := b[tie.value.toId];
      CentreFollows(r, d.x, d.y);
      if tie.value.anchor.Some? {
        AnchoredFollows(r, tie.value.anchor.value, d.x, d.y);
      }
    }
  }

  /** Moved with its target, or with the arrow's own frame. */
  ghost predicate TieFollows(b: map<Id, Rect>, b': map<Id, Rect>, tie: Option<Tie>, stored: Point, stored': Point, d: Point)
    requires tie.Some? ==> tie.value.toId in b && tie.value.toId in b'
  {
    if tie.Some? then b'[tie.value.toId] == Shift(b[tie.value.toId], d.x, d.y) else stored' == Nudged(stored, d.x, d.y)
  }

  lemma BothEndsFollow(how: Boxing, b: map<Id, Rect>, b': map<Id, Rect>, known: set<Id>, line: Line, tail: Point, head: Point, tail': Point, head': Point, d: Point)
    requires EdgesFollow(how) && known <= b.Keys && b'.Keys == b.Keys
    requires TieFollows(b, b', TieAt(known, line.ties, Tail), tail, tail', d) && TieFollows(b, b', TieAt(known, line.ties, Head), head, head', d)
    ensures TailOf(how, b', known, line, tail', head') == Nudged(TailOf(how, b, known, line, tail, head), d.x, d.y)
    ensures HeadOf(how, b', known, line, tail', head') == Nudged(HeadOf(how, b, known, line, tail, head), d.x, d.y)
  {
    var start, finish := TieAt(known, line.ties, Tail), TieAt(known, line.ties, Head);
    EndFollows(how, b, b', start, tail, Aim(b, finish, head), d);
    EndFollows(how, b, b', finish, head, Aim(b, start, tail), d);
  }

  lemma ArrowFollows(how: Boxing, w: Walked, w': Walked, b: map<Id, Rect>, b': map<Id, Rect>, c: map<Id, Course>, deltas: seq<Point>, id: Id, line: Line, own: nat)
    requires EdgesFollow(how) && AllFollow(b, b', c, deltas) && own < |deltas| && Carries(how, FrameAt(w, id), FrameAt(w', id), deltas[own])
    ensures Follows(ArrowBox(how, b, b.Keys, FrameAt(w, id), line), ArrowBox(how, b', b'.Keys, FrameAt(w', id), line), ArrowCourse(c, c.Keys, line, own), deltas)
  {
    var course := ArrowCourse(c, c.Keys, line, own);
    if course.Goes? {
      var tail, head := how.place(FrameAt(w, id), line.tail), how.place(FrameAt(w, id), line.head);
      var d := deltas[course.carrier];
      BothEndsFollow(how, b, b', b.Keys, line, tail, head, how.place(FrameAt(w', id), line.tail), how.place(FrameAt(w', id), line.head), d);
      SpanFollows(TailOf(how, b, b.Keys, line, tail, head), HeadOf(how, b, b.Keys, line, tail, head), Abs(line.bend), d.x, d.y);
    }
  }

  lemma {:induction false} ArrowsFollow(how: Boxing, w: Walked, w': Walked, carriers: map<Id, nat>, deltas: seq<Point>, n: nat,
                                        b: map<Id, Rect>, b': map<Id, Rect>, c: map<Id, Course>)
    requires Drifted(how, w, w', carriers, deltas) && n <= |w.order| && AllFollow(b, b', c, deltas)
    ensures AllFollow(ArrowBoxes(how, w, w.order[..n], b), ArrowBoxes(how, w', w'.order[..n], b'), ArrowCourses(w.order[..n], carriers, c), deltas)
    decreases n
  {
    if n > 0 {
      ArrowsFollow(how, w, w', carriers, deltas, n - 1, b, b', c);
      var a := w.order[n - 1];
      assert w.order[..n][..n - 1] == w.order[..n - 1] && w'.order[..n][..n - 1] == w'.order[..n - 1];
      assert SameRecord(a, w'.order[n - 1]) && CarriedOne(how, w, w', carriers, deltas, a.id);
      if a.kind.Arrow? {
        var front, front', courses := ArrowBoxes(how, w, w.order[..n - 1], b), ArrowBoxes(how, w', w'.order[..n - 1], b'), ArrowCourses(w.order[..n - 1], carriers, c);
        var own := CarrierOf(carriers, a.id);
        ArrowFollows(how, w, w', front, front', courses, deltas, a.id, a.kind.line, own);
        FollowOneMore(front, front', courses, deltas, a.id, ArrowBox(how, front, front.Keys, FrameAt(w, a.id), a.kind.line),
                      ArrowBox(how, front', front'.Keys, FrameAt(w', a.id), a.kind.line), ArrowCourse(courses, courses.Keys, a.kind.line, own));
      }
    }
  }

  /* ------------------------------------------------------------------------- groups */

  lemma {:induction false} AgreedSpeaksForAll(list: seq<Shape>, c: map<Id, Course>)
    ensures forall s :: s in list && s.id in c ==> Agreed(list, c).Some? && (Agreed(list, c).value.Goes? ==> c[s.id] == Agreed(list, c).value)
    decreases |list|
  {
    if list != [] {
      AgreedSpeaksForAll(list[..|list| - 1], c);
      assert forall s :: s in list <==> s == list[|list| - 1] || s in list[..|list| - 1];
    }
  }

  lemma {:induction false} SameChildren(list: seq<Shape>, list': seq<Shape>, parent: Id)
    requires SameRecords(list, list')
    ensures SameRecords(Children(list, parent), Children(list', parent))
    decreases |list|
  {
    if list != [] {
      SameChildren(list[..|list| - 1], list'[..|list| - 1], parent);
    }
  }

  lemma {:induction false} LaidOutFollow(list: seq<Shape>, list': seq<Shape>, b: map<Id, Rect>, b': map<Id, Rect>, d: Point)
    requires SameRecords(list, list') && b'.Keys == b.Keys
    requires forall s :: s in list && s.id in b ==> b'[s.id] == Shift(b[s.id], d.x, d.y)
    ensures var after := LaidOut(list', b');
            && |after| == |LaidOut(list, b)|
            && forall i :: 0 <= i < |after| ==> after[i] == Shift(LaidOut(list, b)[i], d.x, d.y)
    decreases |list|
  {
    if list != [] {
      assert list[|list| - 1] in list && SameRecord(list[|list| - 1], list'[|list| - 1]);
      LaidOutFollow(list[..|list| - 1], list'[..|list| - 1], b, b', d);
    }
  }

  lemma {:induction false} NoneLaidOut(list: seq<Shape>, list': seq<Shape>, b: map<Id, Rect>, b': map<Id, Rect>)
    requires SameRecords(list, list') && b'.Keys == b.Keys && forall s :: s in list ==> s.id !in b
    ensures LaidOut(list, b) == [] && LaidOut(list', b') == []
    decreases |list|
  {
    if list != [] {
      assert list[|list| - 1] in list && SameRecord(list[|list| - 1], list'[|list| - 1]);
      NoneLaidOut(list[..|list| - 1], list'[..|list| - 1], b, b');
    }
  }

  ghost predicate OneRecordEach(shapes: seq<Shape>) {
    forall s, x :: s in shapes && x in shapes && s.id == x.id ==> s == x
  }

  /** The page before and after: the same records but for positions, and the walk's frames carried. */
  ghost predicate Compared(how: Boxing, shapes: seq<Shape>, shapes': seq<Shape>, w: Walked, w': Walked, carriers: map<Id, nat>, deltas: seq<Point>) {
    && Drifted(how, w, w', carriers, deltas) && SameRecords(shapes, shapes')
    && OneRecordEach(shapes) && forall s :: s in w.order ==> s in shapes
  }

  /** With unique ids, a child record that has a box is the listed shape of that id. */
  lemma BoxedChildIsListed(shapes: seq<Shape>, w: Walked, b: map<Id, Rect>, c: Shape)
    requires OneRecordEach(shapes) && BoundsListed(w, b) && c in shapes && c.id in b && forall s :: s in w.order ==> s in shapes
    ensures c in w.order
  {
    var x := ListedShape(w.order, c.id);
  }

  /** What is laid out in a group all goes where the group goes. */
  lemma MembersAgree(shapes: seq<Shape>, w: Walked, b: map<Id, Rect>, c: map<Id, Course>, g: Id)
    requires OneRecordEach(shapes) && BoundsListed(w, b) && c.Keys == b.Keys && forall s :: s in w.order ==> s in shapes
    ensures var agreed := Agreed(Children(w.order, g), c);
            forall s :: s in Children(shapes, g) && s.id in b ==> agreed.Some? && (agreed.value.Goes? ==> c[s.id] == agreed.value)
  {
    ChildMembers(shapes, g);
    ChildMembers(w.order, g);
    AgreedSpeaksForAll(Children(w.order, g), c);
    forall s | s in Children(shapes, g) && s.id in b
      ensures s in Children(w.order, g)
    {
      BoxedChildIsListed(shapes, w, b, s);
    }
  }

  lemma {:induction false} AgreedComesFrom(list: seq<Shape>, c: map<Id, Course>)
    requires Agreed(list, c).Some?
    ensures exists s :: s in list && s.id in c
    decreases |list|
  {
    var s := list[|list| - 1];
    assert s in list;
    if s.id !in c {
      AgreedComesFrom(list[..|list| - 1], c);
      var x :| x in list[..|list| - 1] && x.id in c;
      assert x in list;
    }
  }

  lemma {:induction false} SomeLaidOut(list: seq<Shape>, b: map<Id, Rect>, s: Shape)
    requires s in list && s.id in b
    ensures LaidOut(list, b) != []
    decreases |list|
  {
    if s != list[|list| - 1] {
      SomeLaidOut(list[..|list| - 1], b, s);
    }
  }

  lemma GroupFollows(how: Boxing, shapes: seq<Shape>, shapes': seq<Shape>, w: Walked, w': Walked, carriers: map<Id, nat>, deltas: seq<Point>,
                     b: map<Id, Rect>, b': map<Id, Rect>, c: map<Id, Course>, g: Shape, g': Shape)
    requires Compared(how, shapes, shapes', w, w', carriers, deltas) && AllFollow(b, b', c, deltas) && BoundsListed(w, b)
    requires g in w.order && g'.id == g.id && CarriedOne(how, w, w', carriers, deltas, g.id)
    ensures Follows(GroupBox(shapes, w, b, g), GroupBox(shapes', w', b', g'), GroupCourse(w.order, carriers, c, g), deltas)
  {
    var list, list' := Children(shapes, g.id), Children(shapes', g.id);
    var course := GroupCourse(w.order, carriers, c, g);
    SameChildren(shapes, shapes', g.id);
    MembersAgree(shapes, w, b, c, g.id);
    if Agreed(Children(w.order, g.id), c).None? {
      NoneLaidOut(list, list', b, b');
    } else if course.Goes? {
      AgreedComesFrom(Children(w.order, g.id), c);
      var s :| s in Children(w.order, g.id) && s.id in c;
      ChildMembers(shapes, g.id);
      ChildMembers(w.order, g.id);
      SomeLaidOut(list, b, s);
      assert Follows(b[s.id], b'[s.id], c[s.id], deltas);
      ListFollows(list, list', b, b', c, deltas, course.carrier);
    }
  }

  lemma ListFollows(list: seq<Shape>, list': seq<Shape>, b: map<Id, Rect>, b': map<Id, Rect>, c: map<Id, Course>, deltas: seq<Point>, n: nat)
    requires SameRecords(list, list') && AllFollow(b, b', c, deltas) && LaidOut(list, b) != [] && n < |deltas|
    requires forall s :: s in list && s.id in b ==> c[s.id] == Goes(n)
    ensures LaidOut(list', b') != [] && Union(LaidOut(list', b')) == Shift(Union(LaidOut(list, b)), deltas[n].x, deltas[n].y)
  {
    LaidOutFollow(list, list', b, b', deltas[n]);
    UnionShifts(LaidOut(list, b), LaidOut(list', b'), deltas[n].x, deltas[n].y);
  }

  lemma {:induction false} GroupsFollow(how: Boxing, shapes: seq<Shape>, shapes': seq<Shape>, w: Walked, w': Walked, carriers: map<Id, nat>, deltas: seq<Point>,
                                        n: nat, b: map<Id, Rect>, b': map<Id, Rect>, c: map<Id, Course>)
    requires Compared(how, shapes, shapes', w, w', carriers, deltas) && AllFollow(b, b', c, deltas) && BoundsListed(w, b) && n <= |w.order|
    ensures AllFollow(GroupPass(shapes, w, n, b), GroupPass(shapes', w', n, b'), GroupCourses(w.order, carriers, n, c), deltas)
    decreases n
  {
    if n > 0 {
      var g, g' := w.order[n - 1], w'.order[n - 1];
      assert SameRecord(g, g') && CarriedOne(how, w, w', carriers, deltas, g.id);
      if g.kind == Group {
        var box, box', course := GroupBox(shapes, w, b, g), GroupBox(shapes', w', b', g'), GroupCourse(w.order, carriers, c, g);
        GroupFollows(how, shapes, shapes', w, w', carriers, deltas, b, b', c, g, g');
        FollowOneMore(b, b', c, deltas, g.id, box, box', course);
        IsListed(w.order, g);
        GroupsFollow(how, shapes, shapes', w, w', carriers, deltas, n - 1, b[g.id := box], b'[g.id := box'], c[g.id := course]);
      } else {
        GroupsFollow(how, shapes, shapes', w, w', carriers, deltas, n - 1, b, b', c);
      }
    }
  }

  /**
   * When frames are carried and the page is boxed again, every box that goes with a carrier has moved by exactly that
   * carrier's delta. Which boxes do is read off the records before anything is written.
   */
  lemma BoundsFollow(how: Boxing, shapes: seq<Shape>, shapes': seq<Shape>, w: Walked, w': Walked, carriers: map<Id, nat>, deltas: seq<Point>)
    requires Compared(how, shapes, shapes', w, w', carriers, deltas) && Listed(w.order)
    ensures AllFollow(BoundsOf(how, shapes, w), BoundsOf(how, shapes', w'), Courses(w.order, carriers), deltas)
  {
    var n := |w.order|;
    assert w.order[..n] == w.order && w'.order[..n] == w'.order;
    BoxesFollow(how, w, w', carriers, deltas, n);
    ArrowsFollow(how, w, w', carriers, deltas, n, ShapeBoxes(how, w, w.order), ShapeBoxes(how, w', w'.order), BoxCourses(w.order, carriers));
    ShapesAreListed(how, w);
    GroupsFollow(how, shapes, shapes', w, w', carriers, deltas, n, ArrowBoxes(how, w, w.order, ShapeBoxes(how, w, w.order)),
                 ArrowBoxes(how, w', w'.order, ShapeBoxes(how, w', w'.order)), ArrowCourses(w.order, carriers, BoxCourses(w.order, carriers)));
  }

  /* ------------------------------------------------------------- where courses are plain */

  function CourseOf(order: seq<Shape>, carriers: map<Id, nat>, id: Id): Course {
    if id in Courses(order, carriers) then Courses(order, carriers)[id] else Goes(0)
  }

  /**
   * A part of the page that nothing outside it enters into: its arrows are bound only within it, its groups hold
   * only what is in it, and one carrier carries all of it.
   */
  ghost predicate SelfContained(order: seq<Shape>, carriers: map<Id, nat>, region: set<Id>, n: nat) {
    && (forall s :: s in order && s.id in region ==> CarrierOf(carriers, s.id) == n)
    && (forall s, tie :: s in order && s.id in region && s.kind.Arrow? && tie in s.kind.line.ties && tie.toId in BoxIds(order) + ArrowIds(order) ==> tie.toId in region)
    && (forall s, g :: s in order && g in order && g.id in region && g.kind == Group && s.parentId == g.id ==> s.id in region)
  }

  ghost predicate AllGo(c: map<Id, Course>, region: set<Id>, n: nat) {
    forall k :: k in c && k in region ==> c[k] == Goes(n)
  }

  lemma {:induction false} BoxesGo(order: seq<Shape>, carriers: map<Id, nat>, region: set<Id>, n: nat)
    requires forall s :: s in order && s.id in region ==> CarrierOf(carriers, s.id) == n
    ensures AllGo(BoxCourses(order, carriers), region, n) && BoxCourses(order, carriers).Keys == BoxIds(order)
    decreases |order|
  {
    if order != [] {
      BoxesGo(order[..|order| - 1], carriers, region, n);
      assert forall s :: s in order <==> s == order[|order| - 1] || s in order[..|order| - 1];
    }
  }

  lemma {:induction false} ArrowsGo(order: seq<Shape>, carriers: map<Id, nat>, region: set<Id>, n: nat, i: nat, c: map<Id, Course>)
    requires SelfContained(order, carriers, region, n) && AllGo(c, region, n) && c.Keys <= BoxIds(order) && i <= |order|
    ensures AllGo(ArrowCourses(order[..i], carriers, c), region, n)
    ensures ArrowCourses(order[..i], carriers, c).Keys <= BoxIds(order) + ArrowIds(order)
    decreases i
  {
    if i > 0 {
      ArrowsGo(order, carriers, region, n, i - 1, c);
      assert order[..i][..i - 1] == order[..i - 1];
      var a := order[i - 1];
      assert a in order;
    }
  }

  lemma AgreedGoes(list: seq<Shape>, c: map<Id, Course>, n: nat)
    requires Agreed(list, c).Some? && forall s :: s in list && s.id in c ==> c[s.id] == Goes(n)
    ensures Agreed(list, c).value == Goes(n)
    decreases |list|
  {
    var front := list[..|list| - 1];
    assert list[|list| - 1] in list;
    if Agreed(front, c).Some? {
      AgreedGoes(front, c, n);
    }
  }

  lemma {:induction false} GroupsGo(order: seq<Shape>, carriers: map<Id, nat>, region: set<Id>, n: nat, i: nat, c: map<Id, Course>)
    requires SelfContained(order, carriers, region, n) && AllGo(c, region, n) && i <= |order|
    ensures AllGo(GroupCourses(order, carriers, i, c), region, n)
    decreases i
  {
    if i > 0 {
      var g := order[i - 1];
      assert g in order;
      if g.kind == Group {
        var course := GroupCourse(order, carriers, c, g);
        ChildMembers(order, g.id);
        if g.id in region && Agreed(Children(order, g.id), c).Some? {
          AgreedGoes(Children(order, g.id), c, n);
        }
        GroupsGo(order, carriers, region, n, i - 1, c[g.id := course]);
      } else {
        GroupsGo(order, carriers, region, n, i - 1, c);
      }
    }
  }

  /** All of a self-contained part goes with its carrier, arrows and groups included. */
  lemma SelfContainedGoes(order: seq<Shape>, carriers: map<Id, nat>, region: set<Id>, n: nat)
    requires SelfContained(order, carriers, region, n)
    ensures AllGo(Courses(order, carriers), region, n)
  {
    BoxesGo(order, carriers, region, n);
    assert order[..|order|] == order;
    ArrowsGo(order, carriers, region, n, |order|, BoxCourses(order, carriers));
    GroupsGo(order, carriers, region, n, |order|, ArrowCourses(order, carriers, BoxCourses(order, carriers)));
  }

  lemma {:induction false} BoxCourseKeys(order: seq<Shape>, carriers: map<Id, nat>)
    ensures BoxCourses(order, carriers).Keys == BoxIds(order)
    decreases |order|
  {
    if order != [] {
      BoxCourseKeys(order[..|order| - 1], carriers);
      assert forall s :: s in order <==> s == order[|order| - 1] || s in order[..|order| - 1];
    }
  }

  lemma {:induction false} ArrowCourseKeys(order: seq<Shape>, carriers: map<Id, nat>, c: map<Id, Course>)
    ensures ArrowCourses(order, carriers, c).Keys == c.Keys + ArrowIds(order)
    decreases |order|
  {
    if order != [] {
      ArrowCourseKeys(order[..|order| - 1], carriers, c);
      assert forall s :: s in order <==> s == order[|order| - 1] || s in order[..|order| - 1];
    }
  }

  lemma {:induction false} GroupCourseKeys(order: seq<Shape>, carriers: map<Id, nat>, n: nat, c: map<Id, Course>)
    requires n <= |order|
    ensures c.Keys <= GroupCourses(order, carriers, n, c).Keys
    ensures forall i :: 0 <= i < n && order[i].kind == Group ==> order[i].id in GroupCourses(order, carriers, n, c)
    decreases n
  {
    if n > 0 {
      var s := order[n - 1];
      GroupCourseKeys(order, carriers, n - 1, if s.kind == Group then c[s.id := GroupCourse(order, carriers, c, s)] else c);
    }
  }

  /** Everything listed has a course. */
  lemma CoursesAreListed(order: seq<Shape>, carriers: map<Id, nat>)
    ensures forall s :: s in order ==> s.id in Courses(order, carriers)
  {
    BoxCourseKeys(order, carriers);
    ArrowCourseKeys(order, carriers, BoxCourses(order, carriers));
    GroupCourseKeys(order, carriers, |order|, ArrowCourses(order, carriers, BoxCourses(order, carriers)));
    forall s | s in order
      ensures s.id in Courses(order, carriers)
    {
      var i :| 0 <= i < |order| && order[i] == s;
      assert s.kind == Box || s.kind == Group || s.kind.Arrow?;
    }
  }
}
