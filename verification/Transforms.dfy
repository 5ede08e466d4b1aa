/** Plane transforms: a rotation is a unit pair (cosine, sine) and rotations compose like complex numbers. */
module Transforms {
  import opened Geometry

  datatype Turn = Turn(c: real, s: real)

  const NO_TURN := Turn(1.0, 0.0)

  predicate Unit(t: Turn) {
    t.c * t.c + t.s * t.s == 1.0
  }

  /** The turn by the sum of two angles. */
  function Then(a: Turn, b: Turn): Turn {
    Turn(a.c * b.c - a.s * b.s, a.s * b.c + a.c * b.s)
  }

  /** The linear part of a 2D affine matrix, column by column. */
  datatype Linear = Linear(a: real, b: real, c: real, d: real)

  /** The six numbers of the source's matrix: a linear part and the page-space origin. */
  datatype Matrix = Matrix(linear: Linear, origin: Point)

  const IDENTITY := Matrix(Linear(1.0, 0.0, 0.0, 1.0), Point(0.0, 0.0))

  function Rotation(t: Turn): Linear {
    Linear(t.c, t.s, -t.s, t.c)
  }

  function Local(x: real, y: real, t: Turn): Matrix {
    Matrix(Rotation(t), Point(x, y))
  }

  function Nudged(p: Point, dx: real, dy: real): Point {
    Point(p.x + dx, p.y + dy)
  }

  function ApplyLinear(l: Linear, p: Point): Point {
    Point(l.a * p.x + l.c * p.y, l.b * p.x + l.d * p.y)
  }

  function Apply(m: Matrix, p: Point): Point {
    Nudged(ApplyLinear(m.linear, p), m.origin.x, m.origin.y)
  }

  function ComposeLinear(p: Linear, q: Linear): Linear {
    Linear(p.a * q.a + p.c * q.b, p.b * q.a + p.d * q.b, p.a * q.c + p.c * q.d, p.b * q.c + p.d * q.d)
  }

  /** The child's origin is a point of the parent's frame. */
  function Compose(p: Matrix, q: Matrix): Matrix {
    Matrix(ComposeLinear(p.linear, q.linear), Apply(p, q.origin))
  }

  /** The least box around four points. */
  function BoxOf(p: Point, q: Point, u: Point, v: Point): Rect {
    var x0, x1 := Min(Min(Min(p.x, q.x), u.x), v.x), Max(Max(Max(p.x, q.x), u.x), v.x);
    var y0, y1 := Min(Min(Min(p.y, q.y), u.y), v.y), Max(Max(Max(p.y, q.y), u.y), v.y);
    Rect(x0, y0, x1 - x0, y1 - y0)
  }

  function Aabb(m: Matrix, r: Rect): Rect {
    BoxOf(Apply(m, Point(r.x, r.y)), Apply(m, Point(Right(r), r.y)),
          Apply(m, Point(r.x, Bottom(r))), Apply(m, Point(Right(r), Bottom(r))))
  }

  /** A page-space translation of everything a matrix places. */
  function Carried(m: Matrix, dx: real, dy: real): Matrix {
    m.(origin := Nudged(m.origin, dx, dy))
  }

  lemma TurnsStayUnit(a: Turn, b: Turn)
    requires Unit(a) && Unit(b)
    ensures Unit(Then(a, b))
  {
    var t := Then(a, b);
    assert t.c * t.c + t.s * t.s == (a.c * a.c + a.s * a.s) * (b.c * b.c + b.s * b.s);
  }

  /** Composing transforms adds their angles: a nested shape is turned by its accumulated rotation. */
  lemma ComposedTurn(t: Turn, u: Turn)
    ensures ComposeLinear(Rotation(t), Rotation(u)) == Rotation(Then(t, u))
  {
  }

  lemma ApplyCarried(m: Matrix, p: Point, dx: real, dy: real)
    ensures Apply(Carried(m, dx, dy), p) == Nudged(Apply(m, p), dx, dy)
  {
  }

  /** Carrying a container carries everything in it by the same amount. */
  lemma CarriedContainer(p: Matrix, q: Matrix, dx: real, dy: real)
    ensures Compose(Carried(p, dx, dy), q) == Carried(Compose(p, q), dx, dy)
  {
    ApplyCarried(p, q.origin, dx, dy);
  }

  /** The page-space delta turned back into a frame rotated by `t`. */
  function IntoFrame(t: Turn, dx: real, dy: real): Point {
    Point(dx * t.c - dy * (-t.s), dx * (-t.s) + dy * t.c)
  }

  /** Turning into a frame and back is the identity, because cosine and sine are a unit pair. */
  lemma TurnedBack(c: real, s: real, dx: real, dy: real)
    requires c * c + s * s == 1.0
    ensures c * (dx * c - dy * (-s)) - s * (dx * (-s) + dy * c) == dx
    ensures s * (dx * c - dy * (-s)) + c * (dx * (-s) + dy * c) == dy
  {
    var u, v := dx * c - dy * (-s), dx * (-s) + dy * c;
    assert c * u == dx * (c * c) + dy * (c * s);
    assert s * v == dy * (c * s) - dx * (s * s);
    assert dx * (c * c) + dx * (s * s) == dx * (c * c + s * s);
    assert s * u == dx * (c * s) + dy * (s * s);
    assert c * v == dy * (c * c) - dx * (c * s);
    assert dy * (c * c) + dy * (s * s) == dy * (c * c + s * s);
  }

  lemma ApplyLinearAdds(l: Linear, p: Point, d: Point)
    ensures ApplyLinear(l, Nudged(p, d.x, d.y)) == Nudged(ApplyLinear(l, p), ApplyLinear(l, d).x, ApplyLinear(l, d).y)
  {
  }

  lemma TurnedIntoFrame(t: Turn, dx: real, dy: real)
    requires Unit(t)
    ensures ApplyLinear(Rotation(t), IntoFrame(t, dx, dy)) == Point(dx, dy)
  {
    TurnedBack(t.c, t.s, dx, dy);
    var d := IntoFrame(t, dx, dy);
    assert (-t.s) * d.y == -(t.s * d.y);
  }

  /** Moving a shape in its container's frame carries its page-space matrix by the delta turned out of that frame. */
  lemma NudgedInFrame(p: Matrix, q: Matrix, d: Point)
    ensures var e := ApplyLinear(p.linear, d); Compose(p, Carried(q, d.x, d.y)) == Carried(Compose(p, q), e.x, e.y)
  {
    var e := ApplyLinear(p.linear, d);
    ApplyLinearAdds(p.linear, q.origin, d);
    NudgedTwice(ApplyLinear(p.linear, q.origin), e.x, e.y, p.origin.x, p.origin.y);
  }

  /** Moving a shape by the delta turned into its container's frame carries its page-space matrix by exactly the delta. */
  lemma IntoFrameIsExact(p: Matrix, t: Turn, q: Matrix, dx: real, dy: real)
    requires p.linear == Rotation(t) && Unit(t)
    ensures var d := IntoFrame(t, dx, dy);
            Compose(p, Carried(q, d.x, d.y)) == Carried(Compose(p, q), dx, dy)
  {
    TurnedIntoFrame(t, dx, dy);
    NudgedInFrame(p, q, IntoFrame(t, dx, dy));
  }

  /** A delta left unturned comes out right only where nothing is turned, or nothing is moved. */
  lemma UnturnedIsExactExactlyWhen(t: Turn, dx: real, dy: real)
    requires Unit(t)
    ensures ApplyLinear(Rotation(t), IntoFrame(NO_TURN, dx, dy)) == Point(dx, dy) <==> t == NO_TURN || (dx == 0.0 && dy == 0.0)
  {
    var d := ApplyLinear(Rotation(t), Point(dx, dy));
    assert IntoFrame(NO_TURN, dx, dy) == Point(dx, dy);
    if d == Point(dx, dy) && (dx != 0.0 || dy != 0.0) {
      FixedMeansNoTurn(t.c, t.s, dx, dy);
    }
  }

  lemma FixedMeansNoTurn(c: real, s: real, dx: real, dy: real)
    requires c * c + s * s == 1.0 && c * dx - s * dy == dx && s * dx + c * dy == dy && (dx != 0.0 || dy != 0.0)
    ensures c == 1.0 && s == 0.0
  {
    var n := dx * dx + dy * dy;
    SquaresArePositive(dx, dy);
    assert c * n == (c * dx - s * dy) * dx + (s * dx + c * dy) * dy;
    assert c * n == n;
    assert (c - 1.0) * n == 0.0;
  }

  lemma Square(x: real)
    ensures x * x >= 0.0 && (x != 0.0 ==> x * x > 0.0)
  {
    assert x > 0.0 ==> x * x > 0.0;
    assert x < 0.0 ==> x * x > 0.0;
  }

  lemma SquaresArePositive(x: real, y: real)
    requires x != 0.0 || y != 0.0
    ensures x * x + y * y > 0.0
  {
    Square(x);
    Square(y);
  }

  lemma NudgedTwice(p: Point, dx: real, dy: real, ex: real, ey: real)
    ensures Nudged(Nudged(p, dx, dy), ex, ey) == Nudged(Nudged(p, ex, ey), dx, dy)
  {
  }

  lemma BoxOfNudged(p: Point, q: Point, u: Point, v: Point, dx: real, dy: real)
    ensures BoxOf(Nudged(p, dx, dy), Nudged(q, dx, dy), Nudged(u, dx, dy), Nudged(v, dx, dy)) == Shift(BoxOf(p, q, u, v), dx, dy)
  {
  }

  lemma AabbOfCarried(m: Matrix, r: Rect, dx: real, dy: real)
    ensures Aabb(Carried(m, dx, dy), r) == Shift(Aabb(m, r), dx, dy)
  {
    var p, q, u, v := Point(r.x, r.y), Point(Right(r), r.y), Point(r.x, Bottom(r)), Point(Right(r), Bottom(r));
    ApplyCarried(m, p, dx, dy);
    ApplyCarried(m, q, dx, dy);
    ApplyCarried(m, u, dx, dy);
    ApplyCarried(m, v, dx, dy);
    BoxOfNudged(Apply(m, p), Apply(m, q), Apply(m, u), Apply(m, v), dx, dy);
  }
}
