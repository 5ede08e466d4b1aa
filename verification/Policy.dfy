/**
 * The retention policy in terms of the rows: which checkpoints are kept and which events and checkpoints go, with every
 * reason and every number spelled out, and what that means for checkpoints a person can rely on.
 */
module Policy {
  import opened Wrappers
  import opened Snapshots
  import opened Tables
  import opened Compaction
  import opened CompactionPass
  import opened HistoryInvariant
  import opened BoardRuns

  /* ----------------------------------------------------------------------- the policy */

  /** A day in milliseconds. */
  const ONE_DAY: int := 24 * 60 * 60 * 1000

  /** Asked for by a person, or taken to save the board from a restore. */
  predicate ByHand(c: Checkpoint) {
    c.reason == Explicit || c.reason == PreRestore
  }

  /** Any other checkpoint, of whatever reason, is thinned to one a week once it is this old. */
  predicate Thinned(c: Checkpoint, s: Settings) {
    && (c.reason == LegacyImport || c.reason == Periodic || c.reason == RestoreCompleted || c.reason.Other?)
    && c.createdAt < s.now - s.checkpointDays * ONE_DAY
  }

  /** The same week from Monday to Sunday: the first day of the epoch was a Thursday. */
  predicate SameWeek(a: int, b: int) {
    (a / ONE_DAY + 3) / 7 == (b / ONE_DAY + 3) / 7
  }

  /** The newest of those thinned in its week. */
  ghost predicate SpeaksForItsWeek(cs: seq<Checkpoint>, c: Checkpoint, s: Settings) {
    Thinned(c, s) && forall d :: d in cs && Thinned(d, s) && SameWeek(d.createdAt, c.createdAt) ==> d.id <= c.id
  }

  /** The first, the last, the first without a base, made by hand, not yet old, or speaking for its week. */
  ghost predicate Kept(cs: seq<Checkpoint>, c: Checkpoint, s: Settings) {
    && c in cs
    && (|| (forall d :: d in cs ==> c.id <= d.id) || (forall d :: d in cs ==> d.id <= c.id)
        || (c.base.None? && forall d :: d in cs && d.base.None? ==> c.id <= d.id)
        || ByHand(c) || !Thinned(c, s) || SpeaksForItsWeek(cs, c, s))
  }

  function StartOf(c: Checkpoint): nat {
    match c.base
    case None => 0
    case Some(id) => id
  }

  /**
   * Two kept checkpoints with none kept between them, at least the second of which, and every one kept before it but for
   * the very first, is older than the window of full resolution.
   */
  ghost predicate Neighbours(cs: seq<Checkpoint>, lower: Checkpoint, upper: Checkpoint, s: Settings) {
    && Kept(cs, lower, s) && Kept(cs, upper, s) && lower.id < upper.id
    && (forall c :: Kept(cs, c, s) ==> !(lower.id < c.id < upper.id))
    && (forall c, first :: Kept(cs, c, s) && Kept(cs, first, s) && first.id < c.id <= upper.id ==>
          c.createdAt < s.now - s.detailedDays * ONE_DAY)
  }

  /** An event goes with the whole stretch between two such checkpoints. */
  ghost predicate EventGoes(t: Tables, id: nat, s: Settings) {
    exists lower, upper :: Neighbours(t.checkpoints, lower, upper, s) && StartOf(lower) < id <= StartOf(upper)
  }

  /** A checkpoint goes if it is not kept and is based strictly inside such a stretch from which events go. */
  ghost predicate CheckpointGoes(t: Tables, c: Checkpoint, s: Settings) {
    !Kept(t.checkpoints, c, s) && LiesInAStretch(t, StartOf(c), s)
  }

  ghost predicate LiesInAStretch(t: Tables, id: nat, s: Settings) {
    exists lower, upper, e :: Neighbours(t.checkpoints, lower, upper, s) && StartOf(lower) < id < StartOf(upper) &&
      e in t.events && StartOf(lower) < e.id <= StartOf(upper)
  }

  /* --------------------------------------------------------- the plan follows the policy */

  lemma AutomaticIsThinned(c: Checkpoint, s: Settings)
    ensures OldAutomatic(c, CheckpointCutoff(s)) <==> Thinned(c, s)
  {
  }

  lemma FirstAndLast(cs: seq<Checkpoint>, c: Checkpoint)
    requires AscendingCheckpoints(cs) && c in cs
    ensures c == cs[0] <==> forall d :: d in cs ==> c.id <= d.id
    ensures c == cs[|cs| - 1] <==> forall d :: d in cs ==> d.id <= c.id
  {
    var k :| 0 <= k < |cs| && cs[k] == c;
    assert cs[0] in cs && cs[|cs| - 1] in cs;
  }

  lemma FirstWithout(cs: seq<Checkpoint>, c: Checkpoint)
    requires AscendingCheckpoints(cs) && c in cs
    ensures FirstWithoutBase(cs) == Some(c) <==> c.base.None? && forall d :: d in cs && d.base.None? ==> c.id <= d.id
  {
    FirstWithoutBaseIsLeast(cs, c);
    forall d | d in cs && d.id == c.id
      ensures d == c
    {
      var i :| 0 <= i < |cs| && cs[i] == c;
      var j :| 0 <= j < |cs| && cs[j] == d;
    }
  }

  lemma WeekIsWeek(cal: Calendar, cs: seq<Checkpoint>, c: Checkpoint, s: Settings)
    ensures NewestOfItsWeek(cal, cs, c, CheckpointCutoff(s)) <==> SpeaksForItsWeek(cs, c, s)
  {
    forall d | d in cs
      ensures IsoWeek(cal, d.createdAt) == IsoWeek(cal, c.createdAt) <==> SameWeek(d.createdAt, c.createdAt)
      ensures OldAutomatic(d, CheckpointCutoff(s)) <==> Thinned(d, s)
    {
      IsoWeekIsExact(cal, d.createdAt, c.createdAt);
    }
  }

  /** What the plan retains is what the policy keeps. */
  lemma RetainedIsKept(cal: Calendar, cs: seq<Checkpoint>, c: Checkpoint, s: Settings)
    requires AscendingCheckpoints(cs) && c in cs
    ensures Retained(cal, cs, c, CheckpointCutoff(s)) <==> Kept(cs, c, s)
  {
    FirstAndLast(cs, c);
    FirstWithout(cs, c);
    WeekIsWeek(cal, cs, c, s);
  }

  /** The gaps are those between neighbouring rows up to the first row inside the window. */
  lemma {:induction false} GapMembers(rows: seq<Checkpoint>, es: seq<Event>, cutoff: int, i: nat, g: Gap)
    ensures g in Gaps(rows, es, cutoff, i) <==>
            exists k :: i <= k < |rows| - 1 && g == GapAfter(rows, k) && Deletable(g, es) && forall j :: i < j <= k + 1 ==> rows[j].createdAt < cutoff
    decreases |rows| - i
  {
    if i + 1 < |rows| && rows[i + 1].createdAt < cutoff {
      GapMembers(rows, es, cutoff, i + 1, g);
      if k :| i + 1 <= k < |rows| - 1 && g == GapAfter(rows, k) && Deletable(g, es) && forall j :: i + 1 < j <= k + 1 ==> rows[j].createdAt < cutoff {
        assert forall j :: i < j <= k + 1 ==> rows[j].createdAt < cutoff;
      }
      if g == GapAfter(rows, i) && Deletable(g, es) {
        assert forall j :: i < j <= i + 1 ==> rows[j].createdAt < cutoff;
      }
    }
  }

  /** The rows that are kept, in order. */
  ghost predicate KeptRows(cs: seq<Checkpoint>, rows: seq<Checkpoint>, s: Settings) {
    AscendingCheckpoints(rows) && forall c :: c in rows <==> Kept(cs, c, s)
  }

  lemma PlannedRowsAreKept(cal: Calendar, t: Tables, s: Settings)
    requires AscendingCheckpoints(t.checkpoints)
    ensures KeptRows(t.checkpoints, PlannedRows(cal, t, s), s)
  {
    var rows := PlannedRows(cal, t, s);
    RetainedMembers(cal, t.checkpoints, t.checkpoints, CheckpointCutoff(s));
    forall c
      ensures c in rows <==> Kept(t.checkpoints, c, s)
    {
      if c in t.checkpoints {
        RetainedIsKept(cal, t.checkpoints, c, s);
      }
    }
  }

  lemma RowsAreNeighbours(cs: seq<Checkpoint>, rows: seq<Checkpoint>, s: Settings, k: nat)
    requires KeptRows(cs, rows, s) && k + 1 < |rows| && forall j :: 0 < j <= k + 1 ==> rows[j].createdAt < DetailedCutoff(s)
    ensures Neighbours(cs, rows[k], rows[k + 1], s)
  {
    assert rows[k] in rows && rows[k + 1] in rows;
    forall c | Kept(cs, c, s)
      ensures !(rows[k].id < c.id < rows[k + 1].id)
    {
      var j :| 0 <= j < |rows| && rows[j] == c;
    }
    forall c, first | Kept(cs, c, s) && Kept(cs, first, s) && first.id < c.id <= rows[k + 1].id
      ensures c.createdAt < DetailedCutoff(s)
    {
      var j :| 0 <= j < |rows| && rows[j] == c;
      var i :| 0 <= i < |rows| && rows[i] == first;
      assert i < j <= k + 1;
    }
  }

  lemma NeighboursAreRows(cs: seq<Checkpoint>, rows: seq<Checkpoint>, s: Settings, lower: Checkpoint, upper: Checkpoint) returns (k: nat)
    requires KeptRows(cs, rows, s) && Neighbours(cs, lower, upper, s)
    ensures k + 1 < |rows| && rows[k] == lower && rows[k + 1] == upper && forall j :: 0 < j <= k + 1 ==> rows[j].createdAt < DetailedCutoff(s)
  {
    k :| 0 <= k < |rows| && rows[k] == lower;
    var m :| 0 <= m < |rows| && rows[m] == upper;
    assert k < m;
    assert rows[k + 1] in rows;
    if k + 1 < m {
      assert false;
    }
    forall j | 0 < j <= k + 1
      ensures rows[j].createdAt < DetailedCutoff(s)
    {
      assert rows[j] in rows && rows[0] in rows;
      assert rows[0].id < rows[j].id <= upper.id;
    }
  }

  /** A planned gap is a stretch between neighbours from which events go. */
  lemma GapIsStretch(cal: Calendar, t: Tables, s: Settings, g: Gap) returns (lower: Checkpoint, upper: Checkpoint, e: Event)
    requires AscendingEvents(t.events) && AscendingCheckpoints(t.checkpoints) && g in PlannedGaps(cal, t, s)
    ensures Neighbours(t.checkpoints, lower, upper, s) && g == Gap(StartOf(lower), StartOf(upper))
    ensures e in t.events && StartOf(lower) < e.id <= StartOf(upper)
  {
    var rows := PlannedRows(cal, t, s);
    PlannedRowsAreKept(cal, t, s);
    GapMembers(rows, t.events, DetailedCutoff(s), 0, g);
    var k :| 0 <= k < |rows| - 1 && g == GapAfter(rows, k) && Deletable(g, t.events) && forall j :: 0 < j <= k + 1 ==> rows[j].createdAt < DetailedCutoff(s);
    RowsAreNeighbours(t.checkpoints, rows, s, k);
    lower, upper := rows[k], rows[k + 1];
    BetweenMembers(t.events, g.lower, g.upper);
    e := EventsBetween(t.events, g.lower, g.upper)[0];
    assert e in EventsBetween(t.events, g.lower, g.upper);
  }

  lemma StretchIsGap(cal: Calendar, t: Tables, s: Settings, lower: Checkpoint, upper: Checkpoint, e: Event)
    requires AscendingEvents(t.events) && AscendingCheckpoints(t.checkpoints) && Neighbours(t.checkpoints, lower, upper, s)
    requires e in t.events && StartOf(lower) < e.id <= StartOf(upper)
    ensures Gap(StartOf(lower), StartOf(upper)) in PlannedGaps(cal, t, s)
  {
    var rows, g := PlannedRows(cal, t, s), Gap(StartOf(lower), StartOf(upper));
    PlannedRowsAreKept(cal, t, s);
    var k := NeighboursAreRows(t.checkpoints, rows, s, lower, upper);
    BetweenMembers(t.events, g.lower, g.upper);
    assert e in EventsBetween(t.events, g.lower, g.upper);
    assert g == GapAfter(rows, k);
    GapMembers(rows, t.events, DetailedCutoff(s), 0, g);
  }

  lemma InGapGoes(cal: Calendar, t: Tables, s: Settings, e: Event)
    requires AscendingEvents(t.events) && AscendingCheckpoints(t.checkpoints) && e in t.events
    ensures InSomeGap(PlannedGaps(cal, t, s), e.id) <==> EventGoes(t, e.id, s)
  {
    var gaps := PlannedGaps(cal, t, s);
    if InSomeGap(gaps, e.id) {
      var g :| g in gaps && g.lower < e.id <= g.upper;
      var lower, upper, x := GapIsStretch(cal, t, s, g);
    }
    if EventGoes(t, e.id, s) {
      var lower, upper :| Neighbours(t.checkpoints, lower, upper, s) && StartOf(lower) < e.id <= StartOf(upper);
      StretchIsGap(cal, t, s, lower, upper, e);
    }
  }

  /** The plan deletes the events and the checkpoints that go by the policy, and no others. */
  lemma PlanFollowsPolicy(cal: Calendar, t: Tables, s: Settings)
    requires AscendingEvents(t.events) && AscendingCheckpoints(t.checkpoints)
    ensures var t' := Delete(t, PlanOf(cal, t, s));
            && (forall e :: e in t'.events <==> e in t.events && !EventGoes(t, e.id, s))
            && (forall c :: c in t'.checkpoints <==> c in t.checkpoints && !CheckpointGoes(t, c, s))
  {
    var gaps := PlannedGaps(cal, t, s);
    Survivors(cal, t, s);
    forall e | e in t.events
      ensures InSomeGap(gaps, e.id) <==> EventGoes(t, e.id, s)
    {
      InGapGoes(cal, t, s, e);
    }
    forall c | c in t.checkpoints
      ensures Disposable(cal, t.checkpoints, gaps, CheckpointCutoff(s), c) <==> CheckpointGoes(t, c, s)
    {
      DisposableGoes(cal, t, s, c);
    }
  }

  lemma StrictlyInsideIsInAStretch(cal: Calendar, t: Tables, s: Settings, id: nat)
    requires AscendingEvents(t.events) && AscendingCheckpoints(t.checkpoints)
    ensures StrictlyInside(PlannedGaps(cal, t, s), id) <==> LiesInAStretch(t, id, s)
  {
    var gaps := PlannedGaps(cal, t, s);
    if StrictlyInside(gaps, id) {
      var g :| g in gaps && g.lower < id < g.upper;
      var lower, upper, e := GapIsStretch(cal, t, s, g);
    }
    if LiesInAStretch(t, id, s) {
      var lower, upper, e :| Neighbours(t.checkpoints, lower, upper, s) && StartOf(lower) < id < StartOf(upper) &&
        e in t.events && StartOf(lower) < e.id <= StartOf(upper);
      StretchIsGap(cal, t, s, lower, upper, e);
    }
  }

  lemma DisposableGoes(cal: Calendar, t: Tables, s: Settings, c: Checkpoint)
    requires AscendingEvents(t.events) && AscendingCheckpoints(t.checkpoints) && c in t.checkpoints
    ensures Disposable(cal, t.checkpoints, PlannedGaps(cal, t, s), CheckpointCutoff(s), c) <==> CheckpointGoes(t, c, s)
  {
    StrictlyInsideIsInAStretch(cal, t, s, StartOf(c));
    RetainedIsKept(cal, t.checkpoints, c, s);
  }

  /** What a person asked for, or what saved a board from a restore, no pass ever takes. */
  lemma ByHandStays(cal: Calendar, t: Tables, s: Settings, c: Checkpoint)
    requires AscendingEvents(t.events) && AscendingCheckpoints(t.checkpoints) && c in t.checkpoints
    requires c.reason == Explicit || c.reason == PreRestore
    ensures c in Delete(t, PlanOf(cal, t, s)).checkpoints
  {
    PlanFollowsPolicy(cal, t, s);
  }

  /* ------------------------------------------------------------- what a pass looks again at */

  /** Row k is one of the last so many, and above the boundary. */
  ghost predicate RecentRow(es: seq<Event>, boundary: nat, count: nat, k: nat, x: Target) {
    k < |es| && |es| - k <= count && es[k].id > boundary && x == AtEvent(es[k].id)
  }

  lemma {:induction false} RecentExactly(es: seq<Event>, boundary: nat, count: nat, x: Target)
    requires AscendingEvents(es)
    ensures x in RecentTargets(es, boundary, count) <==> exists k: nat :: RecentRow(es, boundary, count, k, x)
    decreases |es|
  {
    if es != [] && count > 0 {
      var n := |es| - 1;
      SplitEvents(es);
      if es[n].id > boundary {
        RecentExactly(es[..n], boundary, count - 1, x);
        RowsBefore(es, es[..n], boundary, count, count - 1, x);
      } else {
        RecentExactly(es[..n], boundary, count, x);
        assert forall k: nat :: !RecentRow(es, boundary, count, k, x) && !RecentRow(es[..n], boundary, count, k, x);
      }
    }
  }

  lemma RowsBefore(es: seq<Event>, front: seq<Event>, boundary: nat, count: nat, fewer: nat, x: Target)
    requires es != [] && front == es[..|es| - 1] && count == fewer + 1 && es[|es| - 1].id > boundary
    ensures (exists k: nat :: RecentRow(es, boundary, count, k, x)) <==>
            x == AtEvent(es[|es| - 1].id) || exists k: nat :: RecentRow(front, boundary, fewer, k, x)
  {
    if k: nat :| RecentRow(es, boundary, count, k, x) {
      assert k < |front| ==> RecentRow(front, boundary, fewer, k, x);
    }
    if k: nat :| RecentRow(front, boundary, fewer, k, x) {
      assert RecentRow(es, boundary, count, k, x);
    }
    if x == AtEvent(es[|es| - 1].id) {
      assert RecentRow(es, boundary, count, |front|, x);
    }
  }

  /** Every checkpoint that is kept, every event up to the boundary that does not go, and the newest hundred above it. */
  ghost predicate RestorePoint(t: Tables, s: Settings, boundary: nat, x: Target) {
    match x
    case AtCheckpoint(id) => exists c :: Kept(t.checkpoints, c, s) && c.id == id
    case AtEvent(id) =>
      || (id <= boundary && !EventGoes(t, id, s) && exists e :: e in t.events && e.id == id)
      || exists k: nat :: RecentRow(t.events, boundary, 100, k, x)
    case AtTime(_) => false
  }

  /** The pass compares exactly these before and after; the boundary is the last event planned to go, if any is. */
  lemma TargetsAreRestorePoints(cal: Calendar, t: Tables, s: Settings, x: Target)
    requires AscendingEvents(t.events) && AscendingCheckpoints(t.checkpoints)
    ensures var plan := PlanOf(cal, t, s);
            && (x in VerificationTargets(t.events, plan) <==> RestorePoint(t, s, plan.boundaryEventId, x))
            && (plan.boundaryEventId == 0 || EventGoes(t, plan.boundaryEventId, s))
  {
    var plan := PlanOf(cal, t, s);
    HistoricalMembers(t.events, plan, x);
    RecentExactly(t.events, plan.boundaryEventId, 100, x);
    KeptIds(cal, t, s, x);
    forall e | e in t.events
      ensures e.id in plan.deletableEventIds <==> EventGoes(t, e.id, s)
    {
      DoomedGo(cal, t, s, e.id);
    }
    if plan.boundaryEventId != 0 {
      DoomedGo(cal, t, s, plan.boundaryEventId);
    }
  }

  lemma DoomedGo(cal: Calendar, t: Tables, s: Settings, id: nat)
    requires AscendingEvents(t.events) && AscendingCheckpoints(t.checkpoints)
    ensures id in PlanOf(cal, t, s).deletableEventIds <==> EventGoes(t, id, s) && exists e :: e in t.events && e.id == id
  {
    DoomedMembers(PlannedGaps(cal, t, s), t.events, id);
    if e :| e in t.events && e.id == id {
      InGapGoes(cal, t, s, e);
    }
  }

  lemma {:induction false} IdsOfCheckpoints(cs: seq<Checkpoint>, id: nat)
    ensures id in CheckpointIds(cs) <==> exists c :: c in cs && c.id == id
  {
    if c :| c in cs && c.id == id {
      var i :| 0 <= i < |cs| && cs[i] == c;
      assert CheckpointIds(cs)[i] == id;
    }
  }

  lemma KeptIds(cal: Calendar, t: Tables, s: Settings, x: Target)
    requires AscendingCheckpoints(t.checkpoints)
    ensures x in CheckpointTargets(PlanOf(cal, t, s).retainedCheckpointIds) <==>
            x.AtCheckpoint? && exists c :: Kept(t.checkpoints, c, s) && c.id == x.checkpointId
  {
    var rows, ids := PlannedRows(cal, t, s), PlanOf(cal, t, s).retainedCheckpointIds;
    PlannedRowsAreKept(cal, t, s);
    if x.AtCheckpoint? {
      IdsOfCheckpoints(rows, x.checkpointId);
      if x.checkpointId in ids {
        var i :| 0 <= i < |ids| && ids[i] == x.checkpointId;
        assert CheckpointTargets(ids)[i] == x;
      }
    }
  }

  /* ------------------------------------------------------------------ over a board's life */

  ghost predicate KeepsRows(t: Tables, t': Tables) {
    t.checkpoints <= t'.checkpoints
  }

  lemma {:induction false} FlushKeepsRows(t: Tables, now: int, force: bool)
    ensures Flush(t, now, force).checkpoints == t.checkpoints
    decreases |t.fragments|
  {
    if t.fragments != [] {
      var n := GroupLength(t.fragments);
      if force || !NotDue(t.fragments[..n], now) {
        FlushKeepsRows(PublishGroup(t, n), now, force);
      }
    }
  }

  lemma MaybeCheckpointKeepsRows(w: World, now: int)
    ensures KeepsRows(w.t, MaybeCheckpoint(w, now).t)
  {
    FlushKeepsRows(w.t, 0, true);
  }

  lemma FlushRecorderKeepsRows(w: World, now: int)
    ensures KeepsRows(w.t, FlushRecorder(w, now).t)
  {
    FlushKeepsRows(w.t, 0, true);
    MaybeCheckpointKeepsRows(w.(t := ForceFlush(w.t)), now);
  }

  lemma RecordKeepsRows(w: World, input: EventInput, now: int)
    ensures KeepsRows(w.t, RecordSynchronousEvent(w, input, now).t)
  {
    FlushKeepsRows(w.t, 0, true);
    MaybeCheckpointKeepsRows(w.(t := AppendEvent(w.t, input, States(w.live))), now);
  }

  lemma SnapKeepsRows(w: World, note: EventInput, flushedAt: int, createdAt: int)
    ensures KeepsRows(w.t, CreateRoomCheckpoint(w, note, flushedAt, createdAt).t)
  {
    var w1 := FlushRecorder(w, flushedAt);
    FlushRecorderKeepsRows(w, flushedAt);
    FlushKeepsRows(w1.t, 0, true);
    FlushKeepsRows(AppendEvent(w1.t, note, States(w1.live)), 0, true);
  }

  lemma RestoreKeepsRows(w: World, r: Restore)
    ensures KeepsRows(w.t, RestoreVersion(w, r).t)
  {
    var w1 := FlushRecorder(w, r.flushedAt);
    FlushRecorderKeepsRows(w, r.flushedAt);
    FlushKeepsRows(w1.t, 0, true);
    FlushKeepsRows(PrepareRestore(ForceFlush(w1.t), r, w1.live), 0, true);
  }

  /** No step takes a checkpoint made by hand. */
  lemma StepKeepsByHand(w: World, s: Step, c: Checkpoint)
    requires Trusted(w) && c in w.t.checkpoints && ByHand(c)
    ensures c in Next(w, s).t.checkpoints
  {
    match s
    case Push(after, input, key) =>
    case Immediate(after, input, now) => RecordKeepsRows(w.(live := after), input, now);
    case Untracked(after) =>
    case Note(input, now) => RecordKeepsRows(w, input, now);
    case CutShort(input) => FlushKeepsRows(w.t, 0, true);
    case TimerFlush(now) => FlushRecorderKeepsRows(w, now);
    case DueFlush(now) => FlushKeepsRows(w.t, now, false);
    case Reopen(now, importedAt) => FlushKeepsRows(w.t, 0, true);
    case Snap(note, flushedAt, createdAt) => SnapKeepsRows(w, note, flushedAt, createdAt);
    case Rewind(r) => RestoreKeepsRows(w, r);
    case Compact(cal, settings, apply) => ByHandStays(cal, w.t, settings, c);
  }

  lemma {:induction false} RunKeepsByHand(w: World, steps: seq<Step>, c: Checkpoint)
    requires Trusted(w) && IsRun(w, steps) && c in w.t.checkpoints && ByHand(c)
    ensures c in Run(w, steps).t.checkpoints
    decreases |steps|
  {
    if steps != [] {
      StepKeepsByHand(w, steps[0], c);
      StepKeepsTrusted(w, steps[0]);
      RunKeepsByHand(Next(w, steps[0]), steps[1..], c);
    }
  }

  /** An accepted restore saves the board it replaces: the row, its reason, its time, its base and its snapshot. */
  lemma RestoreSavesTheBoard(w: World, r: Restore) returns (c: Checkpoint)
    requires Trusted(w) && Enabled(w, Rewind(r)) && RestoreAccepted(w, r)
    ensures c in RestoreVersion(w, r).t.checkpoints && c !in w.t.checkpoints
    ensures c.reason == PreRestore && c.snapshot == w.live && c.createdAt == r.startedAt
    ensures c.base.Some? && exists e :: e in RestoreVersion(w, r).t.events && e.id == c.base.value && e.input == r.started
  {
    var w1, prepared := AcceptedRestore(w, r);
    CompletedRestore(w, r, prepared);
    c := prepared.checkpoints[|prepared.checkpoints| - 1];
    var e := prepared.events[|prepared.events| - 1];
    assert c in prepared.checkpoints && e in prepared.events;
    RestoreKeepsTrusted(w, r);
    FlushRecorderKeepsRows(w, r.flushedAt);
    assert w.t.checkpoints <= w1.t.checkpoints && w1.t.checkpoints + [c] == prepared.checkpoints;
    assert AscendingCheckpoints(prepared.checkpoints);
    forall k | 0 <= k < |w.t.checkpoints|
      ensures w.t.checkpoints[k] != c
    {
      assert prepared.checkpoints[k] == w.t.checkpoints[k];
    }
  }

  /**
   * The way back from a restore: whatever happens afterwards, compaction passes under any settings included, the
   * checkpoint taken before it is still there and rebuilds to the documents there were.
   */
  lemma WayBackStays(w: World, r: Restore, later: seq<Step>) returns (c: Checkpoint)
    requires Trusted(w) && Enabled(w, Rewind(r)) && RestoreAccepted(w, r) && IsRun(RestoreVersion(w, r), later)
    ensures var today := Run(RestoreVersion(w, r), later);
            && c in today.t.checkpoints && c.reason == PreRestore && c.snapshot == w.live
            && Reconstruct(today.t, AtCheckpoint(c.id)).Ok?
            && States(Reconstruct(today.t, AtCheckpoint(c.id)).value.snapshot) == States(w.live)
  {
    var w1 := RestoreVersion(w, r);
    c := RestoreSavesTheBoard(w, r);
    RestoreKeepsTrusted(w, r);
    RunKeepsByHand(w1, later, c);
    RunKeepsTrusted(w1, later);
    var today := Run(w1, later);
    EveryCheckpointRebuilds(today.t, States(today.live), c);
    assert Faithful(c, today.t);
  }
}
