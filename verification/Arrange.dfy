/** Rows, stacks, grids and even distribution, and moving a whole arranged block clear of what it would land on. */
module Arrange {
  import opened Wrappers
  import opened Geometry
  import opened Sliding

  datatype Item = Item(id: string, bounds: Rect)

  /** A page-space translation of a shape, and so of its whole box. */
  datatype Move = Move(id: string, dx: real, dy: real)

  datatype Align = Start | Center | End

  function Offset(container: real, item: real, align: Align): real {
    match align
    case Start => 0.0
    case Center => (container - item) / 2.0
    case End => container - item
  }

  function MoveTo(item: Item, x: real, y: real): Move {
    Move(item.id, x - item.bounds.x, y - item.bounds.y)
  }

  function After(item: Item, m: Move): Rect {
    Shift(item.bounds, m.dx, m.dy)
  }

  /** The boxes the moves lead to. */
  function Boxes(items: seq<Item>, moves: seq<Move>): seq<Rect>
    requires |items| == |moves|
  {
    seq(|items|, i requires 0 <= i < |items| => After(items[i], moves[i]))
  }

  ghost predicate MovesOf(items: seq<Item>, moves: seq<Move>) {
    |moves| == |items| && forall i :: 0 <= i < |items| ==> moves[i].id == items[i].id
  }

  /* ------------------------------------------------------------------ the shapes */

  ghost predicate IsRow(rects: seq<Rect>, gap: real) {
    forall i :: 0 <= i < |rects| - 1 ==> rects[i + 1].x == Right(rects[i]) + gap
  }

  /** The horizontal line a member of a row is aligned on. */
  function AcrossLine(r: Rect, align: Align): real {
    match align
    case Start => r.y
    case Center => r.y + r.h / 2.0
    case End => Bottom(r)
  }

  ghost predicate AlignedAcross(rects: seq<Rect>, align: Align) {
    forall i, j :: 0 <= i < |rects| && 0 <= j < |rects| ==> AcrossLine(rects[i], align) == AcrossLine(rects[j], align)
  }

  ghost predicate IsStack(rects: seq<Rect>, gap: real) {
    forall i :: 0 <= i < |rects| - 1 ==> rects[i + 1].y == Bottom(rects[i]) + gap
  }

  /** The vertical line a member of a stack is aligned on. */
  function DownLine(r: Rect, align: Align): real {
    match align
    case Start => r.x
    case Center => r.x + r.w / 2.0
    case End => Right(r)
  }

  ghost predicate AlignedDown(rects: seq<Rect>, align: Align) {
    forall i, j :: 0 <= i < |rects| && 0 <= j < |rects| ==> DownLine(rects[i], align) == DownLine(rects[j], align)
  }

  /** Row-major cells: member i of a grid with this many columns stands in this column and this row. */
  function ColumnIn(columns: nat): nat -> nat
    requires columns > 0
  {
    i => i % columns
  }

  function RowIn(columns: nat): nat -> nat
    requires columns > 0
  {
    i => i / columns
  }

  /** Members in later columns start at least columnGap right of those in earlier ones; rows likewise, downwards. */
  ghost predicate IsGrid(rects: seq<Rect>, column: nat -> nat, row: nat -> nat, columnGap: real, rowGap: real) {
    forall i, j :: 0 <= i < |rects| && 0 <= j < |rects| ==>
      && (column(i) < column(j) ==> rects[j].x >= Right(rects[i]) + columnGap)
      && (column(i) == column(j) ==> rects[j].x == rects[i].x)
      && (row(i) < row(j) ==> rects[j].y >= Bottom(rects[i]) + rowGap)
      && (row(i) == row(j) ==> rects[j].y == rects[i].y)
  }

  /** Any two members of a row or a stack are at least the gap apart, not only neighbours. */
  lemma {:induction false} RowIsSpaced(rects: seq<Rect>, gap: real, i: nat, j: nat)
    requires IsRow(rects, gap) && gap >= 0.0 && i < j < |rects|
    requires forall k :: 0 <= k < |rects| ==> Proper(rects[k])
    ensures rects[j].x >= Right(rects[i]) + gap && GapBetween(rects[i], rects[j]) >= gap
    decreases j
  {
    if i < j - 1 {
      RowIsSpaced(rects, gap, i, j - 1);
      assert rects[j - 1 + 1].x == Right(rects[j - 1]) + gap;
    }
  }

  lemma {:induction false} StackIsSpaced(rects: seq<Rect>, gap: real, i: nat, j: nat)
    requires IsStack(rects, gap) && gap >= 0.0 && i < j < |rects|
    requires forall k :: 0 <= k < |rects| ==> Proper(rects[k])
    ensures rects[j].y >= Bottom(rects[i]) + gap && GapBetween(rects[i], rects[j]) >= gap
    decreases j
  {
    if i < j - 1 {
      StackIsSpaced(rects, gap, i, j - 1);
      assert rects[j - 1 + 1].y == Bottom(rects[j - 1]) + gap;
    }
  }

  /** Two different members of a grid are in different columns or different rows. */
  lemma CellsAreDistinct(columns: nat, i: nat, j: nat)
    requires columns > 0 && i % columns == j % columns && i / columns == j / columns
    ensures i == j
  {
    assert i == (i / columns) * columns + i % columns;
    assert j == (j / columns) * columns + j % columns;
  }

  /** Any two members of a grid are at least the smaller of the two gaps apart. */
  lemma GridIsSpaced(rects: seq<Rect>, columns: nat, columnGap: real, rowGap: real, i: nat, j: nat)
    requires columns > 0 && IsGrid(rects, ColumnIn(columns), RowIn(columns), columnGap, rowGap)
    requires i < |rects| && j < |rects| && i != j
    ensures i % columns != j % columns ==> GapBetween(rects[i], rects[j]) >= columnGap
    ensures i / columns != j / columns ==> GapBetween(rects[i], rects[j]) >= rowGap
    ensures GapBetween(rects[i], rects[j]) >= Min(columnGap, rowGap)
  {
    GridPairSpaced(rects, ColumnIn(columns), RowIn(columns), columnGap, rowGap, i, j);
    if i % columns == j % columns && i / columns == j / columns {
      CellsAreDistinct(columns, i, j);
    }
  }

  lemma GridPairSpaced(rects: seq<Rect>, column: nat -> nat, row: nat -> nat, columnGap: real, rowGap: real, i: nat, j: nat)
    requires IsGrid(rects, column, row, columnGap, rowGap) && i < |rects| && j < |rects|
    ensures column(i) != column(j) ==> GapBetween(rects[i], rects[j]) >= columnGap
    ensures row(i) != row(j) ==> GapBetween(rects[i], rects[j]) >= rowGap
  {
  }

  /** The whole arrangement moved rigidly. */
  ghost predicate SameOffsets(a: seq<Rect>, b: seq<Rect>, dy: real) {
    |a| == |b| && forall i :: 0 <= i < |a| ==> b[i] == Shift(a[i], 0.0, dy)
  }

  lemma RigidRow(a: seq<Rect>, b: seq<Rect>, dy: real, gap: real, align: Align)
    requires SameOffsets(a, b, dy) && IsRow(a, gap) && AlignedAcross(a, align)
    ensures IsRow(b, gap) && AlignedAcross(b, align)
  {
    forall i | 0 <= i < |b|
      ensures AcrossLine(b[i], align) == AcrossLine(a[i], align) + dy
    {
    }
  }

  lemma RigidStack(a: seq<Rect>, b: seq<Rect>, dy: real, gap: real, align: Align)
    requires SameOffsets(a, b, dy) && IsStack(a, gap) && AlignedDown(a, align)
    ensures IsStack(b, gap) && AlignedDown(b, align)
  {
    forall i | 0 <= i < |b|
      ensures DownLine(b[i], align) == DownLine(a[i], align)
    {
    }
  }

  lemma RigidGrid(a: seq<Rect>, b: seq<Rect>, dy: real, column: nat -> nat, row: nat -> nat, columnGap: real, rowGap: real)
    requires SameOffsets(a, b, dy) && IsGrid(a, column, row, columnGap, rowGap)
    ensures IsGrid(b, column, row, columnGap, rowGap)
  {
    forall i, j | 0 <= i < |b| && 0 <= j < |b|
      ensures column(i) < column(j) ==> b[j].x >= Right(b[i]) + columnGap
      ensures column(i) == column(j) ==> b[j].x == b[i].x
      ensures row(i) < row(j) ==> b[j].y >= Bottom(b[i]) + rowGap
      ensures row(i) == row(j) ==> b[j].y == b[i].y
    {
      assert b[i] == Shift(a[i], 0.0, dy) && b[j] == Shift(a[j], 0.0, dy);
    }
  }

  /* ------------------------------------------------------------------- clear block */

  /**
   * The planned block moved rigidly down by `dy`: not at all unless asked to avoid collisions, and then by the
   * least distance at which the block as a whole is clear; up to the slide's cap every member ends clear.
   */
  ghost predicate Dropped(planned: seq<Rect>, final: seq<Rect>, blockers: seq<Rect>, avoidCollisions: bool, gap: real, dy: real) {
    && planned != [] && SameOffsets(planned, final, dy) && dy >= 0.0
    && (!avoidCollisions ==> dy == 0.0)
    && (forall u :: 0.0 <= u < dy ==> !Clear(blockers, Shift(Union(planned), 0.0, u), gap))
    && (avoidCollisions && |blockers| <= 500 ==> forall i :: 0 <= i < |final| ==> Clear(blockers, final[i], gap))
  }

  /** Slides the whole block down past anything it would land on; internal offsets are kept. */
  method ClearBlock(items: seq<Item>, moves: seq<Move>, blockers: seq<Rect>, avoidCollisions: bool, gap: real)
    returns (cleared: seq<Move>, ghost dy: real)
    requires MovesOf(items, moves) && items != []
    ensures MovesOf(items, cleared)
    ensures Dropped(Boxes(items, moves), Boxes(items, cleared), blockers, avoidCollisions, gap, dy)
    ensures !avoidCollisions ==> cleared == moves
  {
    dy := 0.0;
    if !avoidCollisions {
      return moves, 0.0;
    }
    var rects := Boxes(items, moves);
    var union := RectUnion(rects);
    var block := union.value;
    var p, moved := SlideClear(blockers, Size(block.w, block.h), Point(block.x, block.y), AlongY, gap);
    var dx, down := p.x - block.x, p.y - block.y;
    dy := down;
    if dx != 0.0 || down != 0.0 {
      cleared := seq(|moves|, i requires 0 <= i < |moves| => moves[i].(dx := moves[i].dx + dx, dy := moves[i].dy + down));
    } else {
      cleared := moves;
    }
    forall u | 0.0 <= u < dy
      ensures !Clear(blockers, Shift(block, 0.0, u), gap)
    {
      assert Placed(At(Point(block.x, block.y), AlongY, block.y + u), Size(block.w, block.h)) == Shift(block, 0.0, u);
    }
    if |blockers| <= SLIDE_CAP {
      MembersOfClearBlock(rects, Boxes(items, cleared), blockers, gap, dy);
    }
  }

  /** Members of a clear block are clear. */
  lemma MembersOfClearBlock(planned: seq<Rect>, final: seq<Rect>, blockers: seq<Rect>, gap: real, dy: real)
    requires planned != [] && SameOffsets(planned, final, dy) && Clear(blockers, Shift(Union(planned), 0.0, dy), gap)
    ensures forall i :: 0 <= i < |final| ==> Clear(blockers, final[i], gap)
  {
    UnionIsLeastBox(planned);
    forall i, b | 0 <= i < |final| && b in blockers
      ensures !CloserThan(final[i], b, gap)
    {
      assert planned[i] in planned && Inside(planned[i], Union(planned));
      InsideOfClearIsClear(final[i], Shift(Union(planned), 0.0, dy), b, gap);
    }
  }

  /* ------------------------------------------------------------------ arrangements */

  function MaxHeight(items: seq<Item>): real
    requires items != []
    decreases |items|
  {
    if |items| == 1 then items[0].bounds.h else Max(MaxHeight(items[..|items| - 1]), items[|items| - 1].bounds.h)
  }

  function MaxWidth(items: seq<Item>): real
    requires items != []
    decreases |items|
  {
    if |items| == 1 then items[0].bounds.w else Max(MaxWidth(items[..|items| - 1]), items[|items| - 1].bounds.w)
  }

  method Tallest(items: seq<Item>) returns (h: real)
    requires items != []
    ensures h == MaxHeight(items)
  {
    h := items[0].bounds.h;
    for i := 1 to |items|
      invariant h == MaxHeight(items[..i])
    {
      assert items[..i + 1][..i] == items[..i];
      h := Max(h, items[i].bounds.h);
    }
    assert items[..|items|] == items;
  }

  method Widest(items: seq<Item>) returns (w: real)
    requires items != []
    ensures w == MaxWidth(items)
  {
    w := items[0].bounds.w;
    for i := 1 to |items|
      invariant w == MaxWidth(items[..i])
    {
      assert items[..i + 1][..i] == items[..i];
      w := Max(w, items[i].bounds.w);
    }
    assert items[..|items|] == items;
  }

  ghost predicate SameSizes(items: seq<Item>, rects: seq<Rect>) {
    |rects| == |items| && forall i :: 0 <= i < |items| ==> rects[i].w == items[i].bounds.w && rects[i].h == items[i].bounds.h
  }

  /** The row as planned: from the start, at the gap, on the line of the tallest member. */
  ghost predicate RowFrom(planned: seq<Rect>, items: seq<Item>, start: Point, align: Align, gap: real) {
    && items != [] && SameSizes(items, planned) && planned[0].x == start.x && IsRow(planned, gap)
    && forall i :: 0 <= i < |items| ==> planned[i].y == start.y + Offset(MaxHeight(items), items[i].bounds.h, align)
  }

  ghost predicate StackFrom(planned: seq<Rect>, items: seq<Item>, start: Point, align: Align, gap: real) {
    && items != [] && SameSizes(items, planned) && planned[0].y == start.y && IsStack(planned, gap)
    && forall i :: 0 <= i < |items| ==> planned[i].x == start.x + Offset(MaxWidth(items), items[i].bounds.w, align)
  }

  lemma RowIsAligned(planned: seq<Rect>, items: seq<Item>, start: Point, align: Align, gap: real)
    requires RowFrom(planned, items, start, align, gap)
    ensures AlignedAcross(planned, align)
  {
    forall i | 0 <= i < |planned|
      ensures AcrossLine(planned[i], align) == start.y + (match align case Start => 0.0 case Center => MaxHeight(items) / 2.0 case End => MaxHeight(items))
    {
    }
  }

  lemma StackIsAligned(planned: seq<Rect>, items: seq<Item>, start: Point, align: Align, gap: real)
    requires StackFrom(planned, items, start, align, gap)
    ensures AlignedDown(planned, align)
  {
    forall i | 0 <= i < |planned|
      ensures DownLine(planned[i], align) == start.x + (match align case Start => 0.0 case Center => MaxWidth(items) / 2.0 case End => MaxWidth(items))
    {
    }
  }

  /** A horizontal row in the given order, at a uniform gap, then moved clear as one block. */
  method RowMoves(items: seq<Item>, start: Point, align: Align, gap: real, blockers: seq<Rect>, avoidCollisions: bool)
    returns (moves: seq<Move>, ghost planned: seq<Rect>, ghost dy: real)
    requires items != []
    ensures MovesOf(items, moves)
    ensures RowFrom(planned, items, start, align, gap)
    ensures Dropped(planned, Boxes(items, moves), blockers, avoidCollisions, gap, dy)
    ensures IsRow(Boxes(items, moves), gap) && AlignedAcross(Boxes(items, moves), align)
  {
    var rowHeight := Tallest(items);
    var cursor := start.x;
    var placed: seq<Move> := [];
    for i := 0 to |items|
      invariant |placed| == i
      invariant forall k :: 0 <= k < i ==> placed[k].id == items[k].id
      invariant forall k :: 0 <= k < i ==> After(items[k], placed[k]).y == start.y + Offset(rowHeight, items[k].bounds.h, align)
      invariant forall k :: 0 <= k < i - 1 ==> After(items[k + 1], placed[k + 1]).x == Right(After(items[k], placed[k])) + gap
      invariant if i == 0 then cursor == start.x else After(items[0], placed[0]).x == start.x && cursor == Right(After(items[i - 1], placed[i - 1])) + gap
    {
      var item := items[i];
      placed := placed + [MoveTo(item, cursor, start.y + Offset(rowHeight, item.bounds.h, align))];
      cursor := cursor + item.bounds.w + gap;
    }
    planned := Boxes(items, placed);
    assert IsRow(planned, gap);
    assert RowFrom(planned, items, start, align, gap);
    RowIsAligned(planned, items, start, align, gap);
    moves, dy := ClearBlock(items, placed, blockers, avoidCollisions, gap);
    RigidRow(planned, Boxes(items, moves), dy, gap, align);
  }

  /** A vertical stack in the given order, at a uniform gap, then moved clear as one block. */
  method StackMoves(items: seq<Item>, start: Point, align: Align, gap: real, blockers: seq<Rect>, avoidCollisions: bool)
    returns (moves: seq<Move>, ghost planned: seq<Rect>, ghost dy: real)
    requires items != []
    ensures MovesOf(items, moves)
    ensures StackFrom(planned, items, start, align, gap)
    ensures Dropped(planned, Boxes(items, moves), blockers, avoidCollisions, gap, dy)
    ensures IsStack(Boxes(items, moves), gap) && AlignedDown(Boxes(items, moves), align)
  {
    var stackWidth := Widest(items);
    var cursor := start.y;
    var placed: seq<Move> := [];
    for i := 0 to |items|
      invariant |placed| == i
      invariant forall k :: 0 <= k < i ==> placed[k].id == items[k].id
      invariant forall k :: 0 <= k < i ==> After(items[k], placed[k]).x == start.x + Offset(stackWidth, items[k].bounds.w, align)
      invariant forall k :: 0 <= k < i - 1 ==> After(items[k + 1], placed[k + 1]).y == Bottom(After(items[k], placed[k])) + gap
      invariant if i == 0 then cursor == start.y else After(items[0], placed[0]).y == start.y && cursor == Bottom(After(items[i - 1], placed[i - 1])) + gap
    {
      var item := items[i];
      placed := placed + [MoveTo(item, start.x + Offset(stackWidth, item.bounds.w, align), cursor)];
      cursor := cursor + item.bounds.h + gap;
    }
    planned := Boxes(items, placed);
    assert IsStack(planned, gap);
    assert StackFrom(planned, items, start, align, gap);
    StackIsAligned(planned, items, start, align, gap);
    moves, dy := ClearBlock(items, placed, blockers, avoidCollisions, gap);
    RigidStack(planned, Boxes(items, moves), dy, gap, align);
  }

  /* -------------------------------------------------------------------------- grid */

  /** start + the sum over the tracks before `k` of their extent and one gap. */
  function TrackStart(extents: seq<real>, start: real, gap: real, k: nat): real
    requires k <= |extents|
    decreases k
  {
    if k == 0 then start else TrackStart(extents, start, gap, k - 1) + extents[k - 1] + gap
  }

  lemma {:induction false} TracksAreSpaced(extents: seq<real>, start: real, gap: real, a: nat, b: nat)
    requires a < b < |extents| && gap >= 0.0 && forall k :: 0 <= k < |extents| ==> extents[k] >= 0.0
    ensures TrackStart(extents, start, gap, b) >= TrackStart(extents, start, gap, a) + extents[a] + gap
    decreases b
  {
    if a < b - 1 {
      TracksAreSpaced(extents, start, gap, a, b - 1);
    }
  }

  lemma CellInRange(i: nat, n: nat, columns: nat)
    requires columns > 0 && i < n
    ensures i % columns < columns && i / columns < (n + columns - 1) / columns
  {
    var rows := (n + columns - 1) / columns;
    assert n + columns - 1 == rows * columns + (n + columns - 1) % columns;
    assert i == (i / columns) * columns + i % columns;
    if i / columns >= rows {
      Monotone(rows, i / columns, columns);
      assert false;
    }
  }

  lemma Monotone(a: nat, b: nat, c: nat)
    requires a <= b
    ensures a * c <= b * c
  {
  }

  /** Every track is non-negative and at least as large as each of the first `n` extents standing on it. */
  ghost predicate Fits(extents: seq<real>, n: nat, track: nat -> nat, sizes: seq<real>)
    requires n <= |extents|
  {
    && (forall k :: 0 <= k < |sizes| ==> sizes[k] >= 0.0)
    && (forall i :: 0 <= i < n ==> track(i) < |sizes| && extents[i] <= sizes[track(i)])
  }

  lemma RaiseTrack(extents: seq<real>, n: nat, track: nat -> nat, sizes: seq<real>)
    requires n < |extents| && Fits(extents, n, track, sizes) && track(n) < |sizes|
    ensures Fits(extents, n + 1, track, sizes[track(n) := Max(sizes[track(n)], extents[n])])
  {
  }

  /** No track is larger than the largest of the first `n` extents standing on it; an empty one has no extent. */
  ghost predicate Attained(extents: seq<real>, n: nat, track: nat -> nat, sizes: seq<real>)
    requires n <= |extents|
  {
    forall k :: 0 <= k < |sizes| ==> sizes[k] == 0.0 || exists i :: 0 <= i < n && track(i) == k && extents[i] == sizes[k]
  }

  lemma RaiseAttained(extents: seq<real>, n: nat, track: nat -> nat, sizes: seq<real>)
    requires n < |extents| && Attained(extents, n, track, sizes) && track(n) < |sizes|
    ensures Attained(extents, n + 1, track, sizes[track(n) := Max(sizes[track(n)], extents[n])])
  {
    var raised := sizes[track(n) := Max(sizes[track(n)], extents[n])];
    forall k | 0 <= k < |raised| && raised[k] != 0.0
      ensures exists i :: 0 <= i < n + 1 && track(i) == k && extents[i] == raised[k]
    {
      if k == track(n) && raised[k] == extents[n] {
        assert track(n) == k && extents[n] == raised[k];
      } else {
        var i :| 0 <= i < n && track(i) == k && extents[i] == sizes[k];
        assert track(i) == k && extents[i] == raised[k];
      }
    }
  }

  /** The tracks measured by the first `n` extents. */
  ghost predicate Measures(extents: seq<real>, n: nat, track: nat -> nat, sizes: seq<real>)
    requires n <= |extents|
  {
    Fits(extents, n, track, sizes) && Attained(extents, n, track, sizes)
  }

  lemma RaiseMeasure(extents: seq<real>, n: nat, track: nat -> nat, sizes: seq<real>)
    requires n < |extents| && Measures(extents, n, track, sizes) && track(n) < |sizes|
    ensures Measures(extents, n + 1, track, sizes[track(n) := Max(sizes[track(n)], extents[n])])
  {
    RaiseTrack(extents, n, track, sizes);
    RaiseAttained(extents, n, track, sizes);
  }

  function Widths(items: seq<Item>): seq<real> {
    seq(|items|, i requires 0 <= i < |items| => items[i].bounds.w)
  }

  function Heights(items: seq<Item>): seq<real> {
    seq(|items|, i requires 0 <= i < |items| => items[i].bounds.h)
  }

  /** Each track list starts at zero and is raised member by member. */
  method MeasureTracks(extents: seq<real>, count: nat, track: nat -> nat) returns (sizes: seq<real>)
    requires forall i :: 0 <= i < |extents| ==> track(i) < count
    ensures |sizes| == count && Measures(extents, |extents|, track, sizes)
  {
    sizes := seq(count, _ => 0.0);
    for i := 0 to |extents|
      invariant |sizes| == count && Measures(extents, i, track, sizes)
    {
      RaiseMeasure(extents, i, track, sizes);
      sizes := sizes[track(i) := Max(sizes[track(i)], extents[i])];
    }
  }

  /** Members standing at the starts of their tracks, which fit them, form a grid. */
  lemma TracksMakeGrid(rects: seq<Rect>, column: nat -> nat, row: nat -> nat, start: Point, columnGap: real, rowGap: real,
                       widths: seq<real>, heights: seq<real>)
    requires columnGap >= 0.0 && rowGap >= 0.0
    requires Fits(seq(|rects|, i requires 0 <= i < |rects| => rects[i].w), |rects|, column, widths)
    requires Fits(seq(|rects|, i requires 0 <= i < |rects| => rects[i].h), |rects|, row, heights)
    requires forall i :: 0 <= i < |rects| ==>
               && rects[i].x == TrackStart(widths, start.x, columnGap, column(i))
               && rects[i].y == TrackStart(heights, start.y, rowGap, row(i))
    ensures IsGrid(rects, column, row, columnGap, rowGap)
  {
    forall i, j | 0 <= i < |rects| && 0 <= j < |rects|
      ensures column(i) < column(j) ==> rects[j].x >= Right(rects[i]) + columnGap
      ensures row(i) < row(j) ==> rects[j].y >= Bottom(rects[i]) + rowGap
    {
      if column(i) < column(j) {
        TracksAreSpaced(widths, start.x, columnGap, column(i), column(j));
      }
      if row(i) < row(j) {
        TracksAreSpaced(heights, start.y, rowGap, row(i), row(j));
      }
    }
  }

  method PlaceOnTracks(items: seq<Item>, columns: nat, start: Point, columnGap: real, rowGap: real, widths: seq<real>, heights: seq<real>)
    returns (placed: seq<Move>)
    requires columns > 0
    requires Fits(Widths(items), |items|, ColumnIn(columns), widths)
    requires Fits(Heights(items), |items|, RowIn(columns), heights)
    ensures MovesOf(items, placed)
    ensures forall i :: 0 <= i < |items| ==>
              && Boxes(items, placed)[i].x == TrackStart(widths, start.x, columnGap, ColumnIn(columns)(i))
              && Boxes(items, placed)[i].y == TrackStart(heights, start.y, rowGap, RowIn(columns)(i))
  {
    placed := [];
    for i := 0 to |items|
      invariant |placed| == i
      invariant forall k :: 0 <= k < i ==>
        && placed[k].id == items[k].id
        && After(items[k], placed[k]).x == TrackStart(widths, start.x, columnGap, ColumnIn(columns)(k))
        && After(items[k], placed[k]).y == TrackStart(heights, start.y, rowGap, RowIn(columns)(k))
    {
      var column, row := i % columns, i / columns;
      assert column == ColumnIn(columns)(i) && row == RowIn(columns)(i);
      placed := placed + [MoveTo(items[i], TrackStart(widths, start.x, columnGap, column), TrackStart(heights, start.y, rowGap, row))];
    }
  }

  /** The grid as planned: members at the starts of their tracks, the tracks exactly as large as their largest member. */
  ghost predicate GridFrom(planned: seq<Rect>, items: seq<Item>, columns: nat, start: Point, columnGap: real, rowGap: real,
                           widths: seq<real>, heights: seq<real>)
    requires columns > 0
  {
    && items != [] && SameSizes(items, planned) && |widths| == columns && |heights| == (|items| + columns - 1) / columns
    && Measures(Widths(items), |items|, ColumnIn(columns), widths) && Measures(Heights(items), |items|, RowIn(columns), heights)
    && (forall i :: 0 <= i < |items| ==>
          && planned[i].x == TrackStart(widths, start.x, columnGap, ColumnIn(columns)(i))
          && planned[i].y == TrackStart(heights, start.y, rowGap, RowIn(columns)(i)))
  }

  /** Row-major grid whose columns are as wide, and rows as tall, as their largest member. */
  method GridMoves(items: seq<Item>, columns: nat, start: Point, columnGap: real, rowGap: real, blockers: seq<Rect>, avoidCollisions: bool)
    returns (moves: seq<Move>, ghost planned: seq<Rect>, ghost dy: real, ghost widths: seq<real>, ghost heights: seq<real>)
    requires items != [] && columns > 0 && columnGap >= 0.0 && rowGap >= 0.0
    ensures MovesOf(items, moves)
    ensures GridFrom(planned, items, columns, start, columnGap, rowGap, widths, heights)
    ensures Dropped(planned, Boxes(items, moves), blockers, avoidCollisions, Max(columnGap, rowGap), dy)
    ensures IsGrid(Boxes(items, moves), ColumnIn(columns), RowIn(columns), columnGap, rowGap)
  {
    forall i | 0 <= i < |items|
      ensures ColumnIn(columns)(i) < columns && RowIn(columns)(i) < (|items| + columns - 1) / columns
    {
      CellInRange(i, |items|, columns);
    }
    var columnWidths := MeasureTracks(Widths(items), columns, ColumnIn(columns));
    var rowHeights := MeasureTracks(Heights(items), (|items| + columns - 1) / columns, RowIn(columns));
    widths, heights := columnWidths, rowHeights;
    var placed := PlaceOnTracks(items, columns, start, columnGap, rowGap, columnWidths, rowHeights);
    planned := Boxes(items, placed);
    assert seq(|planned|, i requires 0 <= i < |planned| => planned[i].w) == Widths(items);
    assert seq(|planned|, i requires 0 <= i < |planned| => planned[i].h) == Heights(items);
    TracksMakeGrid(planned, ColumnIn(columns), RowIn(columns), start, columnGap, rowGap, widths, heights);
    moves, dy := ClearBlock(items, placed, blockers, avoidCollisions, Max(columnGap, rowGap));
    RigidGrid(planned, Boxes(items, moves), dy, ColumnIn(columns), RowIn(columns), columnGap, rowGap);
  }

  /* -------------------------------------------------------------------- distribute */

  function NearEdge(r: Rect, axis: Axis): real {
    if axis == AlongX then r.x else r.y
  }

  function Extent(r: Rect, axis: Axis): real {
    if axis == AlongX then r.w else r.h
  }

  function MoveAlong(id: string, axis: Axis, delta: real): Move {
    if axis == AlongX then Move(id, delta, 0.0) else Move(id, 0.0, delta)
  }

  /** Each one the gap after the one before it: a row along x, a stack along y. */
  ghost predicate InLine(rects: seq<Rect>, axis: Axis, gap: real) {
    forall i :: 0 <= i < |rects| - 1 ==> NearEdge(rects[i + 1], axis) == FarEdge(rects[i], axis) + gap
  }

  /** Nothing moves across the axis. */
  ghost predicate OnlyAlong(moves: seq<Move>, axis: Axis) {
    forall i :: 0 <= i < |moves| ==> if axis == AlongX then moves[i].dy == 0.0 else moves[i].dx == 0.0
  }

  function TotalExtent(items: seq<Item>, axis: Axis, n: nat): real
    requires n <= |items|
    decreases n
  {
    if n == 0 then 0.0 else TotalExtent(items, axis, n - 1) + Extent(items[n - 1].bounds, axis)
  }

  function Times(step: real, n: nat): real {
    if n == 0 then 0.0 else Times(step, n - 1) + step
  }

  lemma {:induction false} TimesIsProduct(step: real, n: nat)
    ensures Times(step, n) == step * (n as real)
    decreases n
  {
    if n > 0 {
      TimesIsProduct(step, n - 1);
      var before := (n - 1) as real;
      assert n as real == before + 1.0;
      assert step * (before + 1.0) == step * before + step;
    }
  }

  /**
   * Distribution of shapes already in order along the axis. With a gap the first shape stays and the rest
   * follow at that gap; without one the gaps are made equal and both outermost shapes stay.
   */
  method DistributeMoves(items: seq<Item>, axis: Axis, gap: Option<real>) returns (moves: seq<Move>, even: real)
    requires |items| >= 2
    ensures MovesOf(items, moves) && OnlyAlong(moves, axis)
    ensures InLine(Boxes(items, moves), axis, even)
    ensures After(items[0], moves[0]) == items[0].bounds
    ensures gap.Some? ==> even == gap.value
    ensures gap.None? ==> After(items[|items| - 1], moves[|items| - 1]) == items[|items| - 1].bounds
  {
    var n := |items|;
    var start, end := NearEdge(items[0].bounds, axis), FarEdge(items[n - 1].bounds, axis);
    var total := SumExtents(items, axis);
    even := if gap.Some? then gap.value else (end - start - total) / ((n - 1) as real);
    moves := Spread(items, axis, start, even);
    if gap.None? {
      EvenlySpread(even, end - start - total, n - 1);
    }
  }

  method SumExtents(items: seq<Item>, axis: Axis) returns (total: real)
    ensures total == TotalExtent(items, axis, |items|)
  {
    total := 0.0;
    for i := 0 to |items|
      invariant total == TotalExtent(items, axis, i)
    {
      total := total + Extent(items[i].bounds, axis);
    }
  }

  lemma EvenlySpread(step: real, room: real, n: nat)
    requires n > 0 && step == room / (n as real)
    ensures Times(step, n) == room
  {
    TimesIsProduct(step, n);
  }

  method Spread(items: seq<Item>, axis: Axis, start: real, step: real) returns (moves: seq<Move>)
    requires items != []
    ensures MovesOf(items, moves) && OnlyAlong(moves, axis) && InLine(Boxes(items, moves), axis, step)
    ensures NearEdge(After(items[0], moves[0]), axis) == start
    ensures FarEdge(After(items[|items| - 1], moves[|items| - 1]), axis) ==
            start + TotalExtent(items, axis, |items|) + Times(step, |items| - 1)
  {
    var cursor := start;
    moves := [];
    for i := 0 to |items|
      invariant |moves| == i && OnlyAlong(moves, axis)
      invariant cursor == start + TotalExtent(items, axis, i) + Times(step, i)
      invariant forall k :: 0 <= k < i ==> moves[k].id == items[k].id
      invariant forall k :: 0 <= k < i - 1 ==>
        NearEdge(After(items[k + 1], moves[k + 1]), axis) == FarEdge(After(items[k], moves[k]), axis) + step
      invariant i > 0 ==>
        NearEdge(After(items[0], moves[0]), axis) == start && cursor == FarEdge(After(items[i - 1], moves[i - 1]), axis) + step
    {
      var item := items[i];
      moves := moves + [MoveAlong(item.id, axis, cursor - NearEdge(item.bounds, axis))];
      cursor := cursor + Extent(item.bounds, axis) + step;
    }
  }
}
