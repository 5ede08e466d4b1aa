/** The compaction script: it plans from the tables, deletes in batches behind the retention gate, verifies, commits or rolls back. */
module CompactHistory {
  import opened Wrappers
  import opened Snapshots
  import opened Tables
  import opened Compaction
  import opened CompactionPass
  import opened BoardRuns
  import opened HistoryStore

  /* ------------------------------------------------------------------ planning */

  ghost predicate Pinned(cs: seq<Checkpoint>, c: Checkpoint) {
    (cs != [] && (c == cs[0] || c == cs[|cs| - 1])) || FirstWithoutBase(cs) == Some(c)
  }

  ghost predicate KeptByAge(c: Checkpoint, cutoff: int) {
    !Automatic(c) || c.createdAt >= cutoff
  }

  /** The ids in `retained` are those of the rows for which `p` holds. */
  ghost predicate Marks(retained: set<nat>, cs: seq<Checkpoint>, p: Checkpoint -> bool) {
    forall c :: c in cs ==> (c.id in retained <==> p(c))
  }

  lemma MarkOneMore(retained: set<nat>, cs: seq<Checkpoint>, p: Checkpoint -> bool, q: Checkpoint -> bool, row: Checkpoint)
    requires AscendingCheckpoints(cs) && row in cs && Marks(retained, cs, p)
    requires forall c :: c in cs ==> (q(c) <==> p(c) || c == row)
    ensures Marks(retained + {row.id}, cs, q)
  {
    forall c | c in cs
      ensures c.id in retained + {row.id} <==> q(c)
    {
      SameId(cs, c, row);
    }
  }

  method FindWithoutBase(cs: seq<Checkpoint>) returns (found: Option<Checkpoint>)
    ensures found == FirstWithoutBase(cs)
    ensures found.Some? ==> found.value in cs
  {
    for i := 0 to |cs|
      invariant FirstWithoutBase(cs) == FirstWithoutBase(cs[i..])
    {
      assert cs[i..][1..] == cs[i + 1..];
      if cs[i].base.None? {
        return Some(cs[i]);
      }
    }
    return None;
  }

  method PinEnds(cs: seq<Checkpoint>) returns (retained: set<nat>)
    requires AscendingCheckpoints(cs)
    ensures Marks(retained, cs, c => Pinned(cs, c))
  {
    retained := {};
    if |cs| > 0 {
      var last, first := cs[|cs| - 1], cs[0];
      assert last in cs && first in cs;
      MarkOneMore(retained, cs, c => false, c => c == last, last);
      retained := retained + {last.id};
      MarkOneMore(retained, cs, c => c == last, c => c == last || c == first, first);
      retained := retained + {first.id};
      var nullBase := FindWithoutBase(cs);
      if nullBase.Some? {
        MarkOneMore(retained, cs, c => c == last || c == first, c => Pinned(cs, c), nullBase.value);
        retained := retained + {nullBase.value.id};
      }
    }
  }

  /** Per week, the newest old automatic row seen so far. */
  ghost predicate WeeklyOf(cal: Calendar, seen: seq<Checkpoint>, cutoff: int, weekly: map<Week, Checkpoint>) {
    && (forall c :: c in seen && OldAutomatic(c, cutoff) ==> IsoWeek(cal, c.createdAt) in weekly)
    && (forall w :: w in weekly ==> IsoWeek(cal, weekly[w].createdAt) == w && NewestOfItsWeek(cal, seen, weekly[w], cutoff) && weekly[w] in seen)
  }

  lemma WeeklyOneMore(cal: Calendar, seen: seq<Checkpoint>, row: Checkpoint, cutoff: int, weekly: map<Week, Checkpoint>)
    requires WeeklyOf(cal, seen, cutoff, weekly) && AscendingCheckpoints(seen + [row])
    ensures var bucket := IsoWeek(cal, row.createdAt);
            WeeklyOf(cal, seen + [row], cutoff, if OldAutomatic(row, cutoff) then weekly[bucket := row] else weekly)
    ensures OldAutomatic(row, cutoff) && IsoWeek(cal, row.createdAt) in weekly ==> row.id > weekly[IsoWeek(cal, row.createdAt)].id
  {
    assert forall c :: c in seen + [row] <==> c in seen || c == row;
    forall c | c in seen
      ensures c.id < row.id
    {
      var k :| 0 <= k < |seen| && seen[k] == c;
      assert (seen + [row])[k] == c && (seen + [row])[|seen|] == row;
    }
  }

  /** Pinned rows, and those of the first i rows that are kept whatever their week. */
  ghost predicate MarkedSoFar(retained: set<nat>, cs: seq<Checkpoint>, i: nat, cutoff: int)
    requires i <= |cs|
  {
    forall c :: c in cs ==> (c.id in retained <==> Pinned(cs, c) || (c in cs[..i] && KeptByAge(c, cutoff)))
  }

  lemma MarkRow(retained: set<nat>, cs: seq<Checkpoint>, i: nat, cutoff: int)
    requires AscendingCheckpoints(cs) && i < |cs| && MarkedSoFar(retained, cs, i, cutoff)
    ensures MarkedSoFar(if KeptByAge(cs[i], cutoff) then retained + {cs[i].id} else retained, cs, i + 1, cutoff)
  {
    var row := cs[i];
    assert cs[..i + 1] == cs[..i] + [row];
    forall c | c in cs
      ensures c.id == row.id ==> c == row
      ensures c in cs[..i + 1] <==> c in cs[..i] || c == row
    {
      SameId(cs, c, row);
    }
  }

  lemma MarksTogether(kept: set<nat>, newest: set<nat>, cal: Calendar, cs: seq<Checkpoint>, cutoff: int)
    requires MarkedSoFar(kept, cs, |cs|, cutoff)
    requires Marks(newest, cs, c => NewestOfItsWeek(cal, cs, c, cutoff))
    ensures Marks(kept + newest, cs, c => Retained(cal, cs, c, cutoff))
  {
    assert cs[..|cs|] == cs;
  }

  /** The retention policy, row by row: what is pinned, what a person made, what is recent, and the newest of each week. */
  method CollectRetained(cal: Calendar, cs: seq<Checkpoint>, cutoff: int) returns (retained: set<nat>)
    requires AscendingCheckpoints(cs)
    ensures Marks(retained, cs, c => Retained(cal, cs, c, cutoff))
  {
    retained := PinEnds(cs);
    var weekly: map<Week, Checkpoint> := map[];
    for i := 0 to |cs|
      invariant MarkedSoFar(retained, cs, i, cutoff)
      invariant WeeklyOf(cal, cs[..i], cutoff, weekly)
    {
      var row := cs[i];
      assert cs[..i + 1] == cs[..i] + [row];
      WeeklyOneMore(cal, cs[..i], row, cutoff, weekly);
      MarkRow(retained, cs, i, cutoff);
      if row.reason.Explicit? || row.reason.PreRestore? || row.createdAt >= cutoff {
        retained := retained + {row.id};
      } else {
        var bucket := IsoWeek(cal, row.createdAt);
        if bucket !in weekly || row.id > weekly[bucket].id {
          weekly := weekly[bucket := row];
        }
      }
    }
    assert cs[..|cs|] == cs;
    var newest := set w | w in weekly :: weekly[w].id;
    WeeklyMarks(cal, cs, cutoff, weekly);
    MarksTogether(retained, newest, cal, cs, cutoff);
    retained := retained + newest;
  }

  lemma WeeklyMarks(cal: Calendar, cs: seq<Checkpoint>, cutoff: int, weekly: map<Week, Checkpoint>)
    requires AscendingCheckpoints(cs) && WeeklyOf(cal, cs, cutoff, weekly)
    ensures Marks(set w | w in weekly :: weekly[w].id, cs, c => NewestOfItsWeek(cal, cs, c, cutoff))
  {
    var ids := set w | w in weekly :: weekly[w].id;
    forall c | c in cs
      ensures c.id in ids <==> NewestOfItsWeek(cal, cs, c, cutoff)
    {
      if c.id in ids {
        var w :| w in weekly && weekly[w].id == c.id;
        SameId(cs, c, weekly[w]);
      }
      if NewestOfItsWeek(cal, cs, c, cutoff) {
        var w := IsoWeek(cal, c.createdAt);
        assert weekly[w].id == c.id;
      }
    }
  }

  method FilterRetained(cal: Calendar, cs: seq<Checkpoint>, cutoff: int, retained: set<nat>) returns (rows: seq<Checkpoint>)
    requires Marks(retained, cs, c => Retained(cal, cs, c, cutoff))
    ensures rows == RetainedRows(cal, cs, cs, cutoff)
  {
    rows := [];
    for i := 0 to |cs|
      invariant rows == RetainedRows(cal, cs, cs[..i], cutoff)
    {
      assert cs[..i + 1][..i] == cs[..i] && cs[i] in cs;
      if cs[i].id in retained {
        rows := rows + [cs[i]];
      }
    }
    assert cs[..|cs|] == cs;
  }

  method ListIds(cs: seq<Checkpoint>) returns (ids: seq<nat>)
    ensures ids == CheckpointIds(cs)
  {
    ids := [];
    for i := 0 to |cs|
      invariant ids == CheckpointIds(cs[..i])
    {
      ids := ids + [cs[i].id];
    }
  }

  /** Walks consecutive retained rows until the full-resolution window; empty or inverted gaps are skipped. */
  method CollectGaps(store: BoardHistoryStore, rows: seq<Checkpoint>, cutoff: int) returns (gaps: seq<Gap>, doomed: seq<nat>)
    ensures gaps == Gaps(rows, store.events, cutoff, 0)
    ensures doomed == DoomedIds(gaps, store.events)
  {
    gaps, doomed := [], [];
    var index := 0;
    while index + 1 < |rows|
      invariant 0 <= index
      invariant gaps + Gaps(rows, store.events, cutoff, index) == Gaps(rows, store.events, cutoff, 0)
      invariant doomed == DoomedIds(gaps, store.events)
      decreases |rows| - index
    {
      var upper := rows[index + 1];
      if upper.createdAt >= cutoff {
        break;
      }
      var g := GapAfter(rows, index);
      GapsUnfold(rows, store.events, cutoff, index, gaps);
      if g.lower < g.upper {
        var inside := store.SelectBetween(g.lower, g.upper);
        if inside != [] {
          DoomedConcat(gaps, [g], store.events);
          assert DoomedIds([g], store.events) == IdsOf(inside);
          doomed := doomed + IdsOf(inside);
          gaps := gaps + [g];
        }
      }
      index := index + 1;
    }
  }

  lemma GapsUnfold(rows: seq<Checkpoint>, es: seq<Event>, cutoff: int, i: nat, sofar: seq<Gap>)
    requires i + 1 < |rows| && rows[i + 1].createdAt < cutoff
    ensures sofar + Gaps(rows, es, cutoff, i) ==
            (if Deletable(GapAfter(rows, i), es) then sofar + [GapAfter(rows, i)] else sofar) + Gaps(rows, es, cutoff, i + 1)
  {
    var rest := Gaps(rows, es, cutoff, i + 1);
    assert sofar + ([GapAfter(rows, i)] + rest) == (sofar + [GapAfter(rows, i)]) + rest;
    assert [] + rest == rest;
  }

  lemma {:induction false} DoomedConcat(xs: seq<Gap>, ys: seq<Gap>, es: seq<Event>)
    ensures DoomedIds(xs + ys, es) == DoomedIds(xs, es) + DoomedIds(ys, es)
    decreases |xs|
  {
    if xs == [] {
      assert xs + ys == ys;
    } else {
      assert (xs + ys)[0] == xs[0] && (xs + ys)[1..] == xs[1..] + ys;
      DoomedConcat(xs[1..], ys, es);
    }
  }

  method CollectDisposable(cal: Calendar, cs: seq<Checkpoint>, gaps: seq<Gap>, cutoff: int, retained: set<nat>) returns (rows: seq<Checkpoint>)
    requires Marks(retained, cs, c => Retained(cal, cs, c, cutoff))
    ensures rows == DisposableRows(cal, cs, gaps, cutoff, cs)
  {
    rows := [];
    for i := 0 to |cs|
      invariant rows == DisposableRows(cal, cs, gaps, cutoff, cs[..i])
    {
      assert cs[..i + 1][..i] == cs[..i] && cs[i] in cs;
      if cs[i].id !in retained && StrictlyInside(gaps, BaseOf(cs[i])) {
        rows := rows + [cs[i]];
      }
    }
    assert cs[..|cs|] == cs;
  }

  method PlanCompaction(cal: Calendar, store: BoardHistoryStore, s: Settings) returns (plan: Plan)
    requires AscendingCheckpoints(store.checkpoints)
    ensures plan == PlanOf(cal, store.State(), s)
  {
    var checkpoints := store.checkpoints;
    var cutoff := CheckpointCutoff(s);
    var retained := CollectRetained(cal, checkpoints, cutoff);
    var rows := FilterRetained(cal, checkpoints, cutoff, retained);
    var gaps, doomed := CollectGaps(store, rows, DetailedCutoff(s));
    var disposable := CollectDisposable(cal, checkpoints, gaps, cutoff, retained);
    var kept := ListIds(rows);
    var dropped := ListIds(disposable);
    plan := Plan(kept, dropped, doomed, if |doomed| > 0 then doomed[|doomed| - 1] else 0);
  }

  /* ------------------------------------------------------------------ the pass */

  const BATCH: nat := 400

  lemma {:induction false} WithoutMore(es: seq<Event>, xs: seq<nat>, ys: seq<nat>)
    ensures WithoutEvents(WithoutEvents(es, xs), ys) == WithoutEvents(es, xs + ys)
    decreases |es|
  {
    if es != [] {
      var e, front := es[|es| - 1], es[..|es| - 1];
      WithoutMore(front, xs, ys);
      if e.id !in xs {
        var left := WithoutEvents(front, xs);
        assert (left + [e])[..|left|] == left;
      }
    }
  }

  lemma {:induction false} WithoutNone(es: seq<Event>)
    ensures WithoutEvents(es, []) == es
    decreases |es|
  {
    if es != [] {
      WithoutNone(es[..|es| - 1]);
    }
  }

  /** DELETE ... WHERE id IN (batch), batch after batch; returns the rows left and how many went. */
  method DeleteEventsInBatches(events: seq<Event>, ids: seq<nat>) returns (left: seq<Event>, deleted: int)
    ensures left == WithoutEvents(events, ids) && deleted == |events| - |left|
  {
    left, deleted := events, 0;
    var offset := 0;
    WithoutNone(events);
    while offset < |ids|
      invariant 0 <= offset <= |ids|
      invariant left == WithoutEvents(events, ids[..offset]) && deleted == |events| - |left|
      decreases |ids| - offset
    {
      var end := if offset + BATCH <= |ids| then offset + BATCH else |ids|;
      var batch := ids[offset..end];
      WithoutMore(events, ids[..offset], batch);
      assert ids[..offset] + batch == ids[..end];
      var next := DropEvents(left, batch);
      deleted := deleted + (|left| - |next|);
      left := next;
      offset := end;
    }
    assert ids[..offset] == ids;
  }

  method DropEvents(events: seq<Event>, ids: seq<nat>) returns (left: seq<Event>)
    ensures left == WithoutEvents(events, ids)
  {
    left := [];
    for i := 0 to |events|
      invariant left == WithoutEvents(events[..i], ids)
    {
      assert events[..i + 1][..i] == events[..i];
      if events[i].id !in ids {
        left := left + [events[i]];
      }
    }
    assert events[..|events|] == events;
  }

  method DropCheckpoints(cs: seq<Checkpoint>, ids: seq<nat>) returns (left: seq<Checkpoint>)
    ensures left == WithoutCheckpoints(cs, ids)
  {
    left := [];
    for i := 0 to |cs|
      invariant left == WithoutCheckpoints(cs[..i], ids)
    {
      assert cs[..i + 1][..i] == cs[..i];
      if cs[i].id !in ids {
        left := left + [cs[i]];
      }
    }
    assert cs[..|cs|] == cs;
  }

  /** The snapshots of every target in order, or failure as soon as one does not rebuild. */
  method Rebuilds(store: BoardHistoryStore, targets: seq<Target>) returns (snapshots: Option<seq<Snapshot>>)
    ensures snapshots.Some? <==> AllRebuild(store.State(), targets)
    ensures snapshots.Some? ==> AreSnapshots(store.State(), targets, snapshots.value)
  {
    var list := [];
    for i := 0 to |targets|
      invariant |list| == i
      invariant forall k :: 0 <= k < i ==>
        Reconstruct(store.State(), targets[k]).Ok? && list[k] == Reconstruct(store.State(), targets[k]).value.snapshot
    {
      var r := store.ReconstructTarget(targets[i]);
      if r.Err? {
        assert targets[i] in targets;
        return None;
      }
      list := list + [r.value.snapshot];
    }
    return Some(list);
  }

  /** Tables for which deletes are guarded: no row goes unless the gate is open. */
  class RetentionGate {
    var open: bool

    constructor ()
      ensures !open
    {
      open := false;
    }
  }

  /** What the pass goes by: the plan, what its targets rebuilt to, and how to tell whether the board has moved since. */
  datatype Planned = Planned(plan: Plan, targets: seq<Target>, before: seq<Snapshot>, latest: Option<nat>, checkpointCount: nat)

  /** Planned on these tables, with something to delete. */
  ghost predicate PlannedOn(cal: Calendar, t: Tables, s: Settings, planned: Planned) {
    && planned.plan == PlanOf(cal, t, s) && (planned.plan.deletableEventIds != [] || planned.plan.deletedCheckpointIds != [])
    && planned.targets == VerificationTargets(t.events, planned.plan)
    && AllRebuild(t, planned.targets) && AreSnapshots(t, planned.targets, planned.before)
    && planned.latest == LatestEventId(t) && planned.checkpointCount == |t.checkpoints|
  }

  /** What a server at work does to a board meanwhile: rows are only added, under greater ids. */
  ghost predicate Grown(t: Tables, t': Tables) {
    t.events <= t'.events && t.checkpoints <= t'.checkpoints && (t'.events == t.events || AscendingEvents(t'.events))
  }

  ghost predicate Moved(t: Tables, t': Tables) {
    LatestEventId(t') != LatestEventId(t) || |t'.checkpoints| != |t.checkpoints|
  }

  /** The newest event and the number of checkpoints tell: unless one of them changed, no row was added at all. */
  lemma UnmovedIsUnchanged(t: Tables, t': Tables)
    requires Grown(t, t')
    ensures !Moved(t, t') <==> t'.events == t.events && t'.checkpoints == t.checkpoints
  {
    if |t'.events| > |t.events| && t.events != [] {
      var k := |t.events| - 1;
      assert t'.events[k] == t.events[k];
      assert t'.events[k].id < t'.events[|t'.events| - 1].id;
    }
  }

  lemma SameRowsSamePass(t: Tables, t': Tables, targets: seq<Target>)
    requires t'.events == t.events && t'.checkpoints == t.checkpoints
    ensures forall x :: x in targets ==> Reconstruct(t', x) == Reconstruct(t, x)
  {
  }

  /** Nothing gives the pass away: the board has not moved, every planned row was there, every target rebuilds as then. */
  ghost predicate PassHolds(earlier: Tables, t: Tables, planned: Planned) {
    var t' := Delete(t, planned.plan);
    && !Moved(earlier, t) && |t.events| - |t'.events| == |planned.plan.deletableEventIds|
    && AllRebuild(t', planned.targets) && AreSnapshots(t', planned.targets, planned.before)
  }

  /**
   * One pass, planned on tables from before. Deletes happen between opening and closing the gate, inside what is one
   * transaction in the source: every exit but a commit puts the tables back, and no exit leaves the gate open. Whatever
   * became of the board meanwhile, it is changed only if every target then rebuilds to what it rebuilt to at planning. A
   * board that moved is left alone; on one that had only gained rows the plan is otherwise still the right one.
   */
  method RunPass(cal: Calendar, store: BoardHistoryStore, gate: RetentionGate, planned: Planned, s: Settings, apply: bool, ghost earlier: Tables)
    returns (outcome: Outcome)
    requires PlannedOn(cal, earlier, s, planned) && !gate.open
    modifies store, gate
    ensures !gate.open
    ensures outcome.BoardMoved? <==> Moved(earlier, old(store.State()))
    ensures outcome.Committed? <==> apply && PassHolds(earlier, old(store.State()), planned)
    ensures outcome.RolledBackDryRun? <==> !apply && PassHolds(earlier, old(store.State()), planned)
    ensures !outcome.NothingToDo?
    ensures store.State() == if outcome.Committed? then Delete(old(store.State()), planned.plan) else old(store.State())
    ensures Grown(earlier, old(store.State())) && !outcome.BoardMoved? ==>
              outcome == PassOutcome(cal, old(store.State()), s, apply) && store.State() == AfterPass(cal, old(store.State()), s, apply)
  {
    var latest := store.NewestEventId();
    if latest != planned.latest || |store.checkpoints| != planned.checkpointCount {
      return BoardMoved;
    }
    if Grown(earlier, store.State()) {
      StillTheRightPlan(cal, earlier, store.State(), s, planned, apply);
    }
    var plan, targets := planned.plan, planned.targets;
    var events, checkpoints := store.events, store.checkpoints;
    gate.open := true;
    var deleted;
    store.events, deleted := DeleteEventsInBatches(events, plan.deletableEventIds);
    if deleted != |plan.deletableEventIds| {
      gate.open := false;
      store.events := events;
      return Failed;
    }
    store.checkpoints := DropCheckpoints(checkpoints, plan.deletedCheckpointIds);
    gate.open := false;
    var after := Rebuilds(store, targets);
    SameSnapshots(store.State(), targets, planned.before, after);
    if after != Some(planned.before) {
      store.events, store.checkpoints := events, checkpoints;
      return Failed;
    }
    if !apply {
      store.events, store.checkpoints := events, checkpoints;
      return RolledBackDryRun;
    }
    return Committed;
  }

  /** Plans and, with nothing else at work on the board, passes. */
  method CompactDatabase(cal: Calendar, store: BoardHistoryStore, gate: RetentionGate, s: Settings, apply: bool) returns (outcome: Outcome)
    requires AscendingCheckpoints(store.checkpoints) && !gate.open
    modifies store, gate
    ensures !gate.open
    ensures outcome == PassOutcome(cal, old(store.State()), s, apply)
    ensures store.State() == AfterPass(cal, old(store.State()), s, apply)
  {
    var plan := PlanCompaction(cal, store, s);
    if plan.deletableEventIds == [] && plan.deletedCheckpointIds == [] {
      return NothingToDo;
    }
    var targets := VerificationTargets(store.events, plan);
    var before := Rebuilds(store, targets);
    if before.None? {
      return Failed;
    }
    var latest := store.NewestEventId();
    var planned := Planned(plan, targets, before.value, latest, |store.checkpoints|);
    outcome := RunPass(cal, store, gate, planned, s, apply, store.State());
  }

  ghost predicate AreSnapshots(t: Tables, targets: seq<Target>, snapshots: seq<Snapshot>) {
    |snapshots| == |targets| && forall i :: 0 <= i < |targets| ==>
      Reconstruct(t, targets[i]).Ok? && snapshots[i] == Reconstruct(t, targets[i]).value.snapshot
  }

  lemma SameSnapshots(t: Tables, targets: seq<Target>, before: seq<Snapshot>, after: Option<seq<Snapshot>>)
    requires after.Some? <==> AllRebuild(t, targets)
    requires after.Some? ==> AreSnapshots(t, targets, after.value)
    ensures after == Some(before) <==> AllRebuild(t, targets) && AreSnapshots(t, targets, before)
  {
    if AllRebuild(t, targets) && AreSnapshots(t, targets, before) {
      assert after.value == before;
    }
  }

  /** Comparing with what was noted is comparing with the tables it was noted from. */
  lemma NotedIsAlike(t: Tables, t': Tables, targets: seq<Target>, before: seq<Snapshot>)
    requires AllRebuild(t, targets) && AreSnapshots(t, targets, before)
    ensures AllRebuild(t', targets) && AreSnapshots(t', targets, before) <==> RebuildsAlike(t, t', targets)
  {
    if AllRebuild(t', targets) && AreSnapshots(t', targets, before) {
      forall x | x in targets
        ensures Reconstruct(t', x).Ok? && Reconstruct(t, x).Ok?
        ensures Reconstruct(t', x).value.snapshot == Reconstruct(t, x).value.snapshot
      {
        var i :| 0 <= i < |targets| && targets[i] == x;
        assert before[i] == Reconstruct(t, x).value.snapshot;
      }
    }
    if RebuildsAlike(t, t', targets) {
      forall i | 0 <= i < |targets|
        ensures before[i] == Reconstruct(t', targets[i]).value.snapshot
      {
        assert targets[i] in targets;
      }
    }
  }

  /** On a board that only gained rows and has not moved, the pass comes out as if planned just now. */
  lemma StillTheRightPlan(cal: Calendar, earlier: Tables, t: Tables, s: Settings, planned: Planned, apply: bool)
    requires PlannedOn(cal, earlier, s, planned) && Grown(earlier, t) && !Moved(earlier, t)
    ensures PassOutcome(cal, t, s, apply) == if !PassHolds(earlier, t, planned) then Failed else if apply then Committed else RolledBackDryRun
    ensures planned.plan == PlanOf(cal, t, s)
  {
    UnmovedIsUnchanged(earlier, t);
    SameRowsSamePass(earlier, t, planned.targets);
    assert AllRebuild(t, planned.targets) && AreSnapshots(t, planned.targets, planned.before) by {
      forall i | 0 <= i < |planned.targets|
        ensures Reconstruct(t, planned.targets[i]) == Reconstruct(earlier, planned.targets[i])
      {
        assert planned.targets[i] in planned.targets;
      }
    }
    NotedIsAlike(t, Delete(t, planned.plan), planned.targets, planned.before);
  }

  /** On a board that grew under the server's own operations, an applied pass commits or has nothing to do. */
  method CompactBoard(cal: Calendar, store: BoardHistoryStore, gate: RetentionGate, s: Settings, ghost world: World) returns (outcome: Outcome)
    requires world.t == store.State() && Trusted(world) && !gate.open
    modifies store, gate
    ensures !gate.open && !outcome.Failed?
    ensures Trusted(world.(t := store.State()))
    ensures store.State() == Next(world, Compact(cal, s, true)).t
  {
    CompactionNeverFailsOnABoard(world, cal, s, true);
    CompactKeepsTrusted(world, cal, s, true);
    outcome := CompactDatabase(cal, store, gate, s, true);
  }
}
