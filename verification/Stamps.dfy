/** Time stamps along a run whose clock never runs backwards, and what a compaction pass then leaves alone. */
module Stamps {
  import opened Wrappers
  import opened Records
  import opened Snapshots
  import opened Tables
  import opened Compaction
  import opened CompactionPass
  import opened BoardRuns

  /** No event is stamped later than a checkpoint based at or above it. */
  ghost predicate StampsFollow(t: Tables) {
    forall e, c :: e in t.events && c in t.checkpoints && c.base.Some? && e.id <= c.base.value ==> e.input.createdAt <= c.createdAt
  }

  /** Every stamp so far is at most `at`, and every id and base at most the last event's. */
  ghost predicate Stamped(t: Tables, at: int) {
    && StampsFollow(t)
    && (forall e :: e in t.events ==> e.id <= t.lastEventId && e.input.createdAt <= at)
    && (forall f :: f in t.fragments ==> f.input.createdAt <= at)
    && (forall c :: c in t.checkpoints && c.base.Some? ==> c.base.value <= t.lastEventId)
  }

  /* -------------------------------------------------------------------- one row at a time */

  lemma StampedLater(t: Tables, at: int, later: int)
    requires Stamped(t, at) && at <= later
    ensures Stamped(t, later)
  {
  }

  lemma InsertEventStamped(t: Tables, input: EventInput, now: Docs, at: int)
    requires Stamped(t, at) && input.createdAt <= at
    ensures Stamped(InsertEvent(t, input, now), at)
  {
  }

  /** A checkpoint written now is stamped no earlier than any event there is. */
  lemma InsertCheckpointStamped(t: Tables, createdAt: int, base: Option<nat>, reason: Reason, snapshot: Snapshot, at: int)
    requires Stamped(t, at) && at <= createdAt && (base.Some? ==> base.value <= t.lastEventId)
    ensures Stamped(InsertCheckpoint(t, createdAt, base, reason, snapshot), createdAt)
  {
  }

  lemma PublishStamped(t: Tables, n: nat, at: int)
    requires Stamped(t, at) && 1 <= n <= |t.fragments|
    ensures Stamped(PublishGroup(t, n), at)
  {
    var group := t.fragments[..n];
    assert group[n - 1] in t.fragments;
    InsertEventStamped(t, GroupEvent(group), DocsAfter(t, group[n - 1]), at);
  }

  lemma {:induction false} FlushStamped(t: Tables, now: int, force: bool, at: int)
    requires Stamped(t, at)
    ensures Stamped(Flush(t, now, force), at)
    decreases |t.fragments|
  {
    if t.fragments != [] {
      var n := GroupLength(t.fragments);
      if force || !NotDue(t.fragments[..n], now) {
        PublishStamped(t, n, at);
        FlushStamped(PublishGroup(t, n), now, force, at);
      }
    }
  }

  lemma AppendEventStamped(t: Tables, input: EventInput, now: Docs, at: int)
    requires Stamped(t, at) && input.createdAt <= at
    ensures Stamped(AppendEvent(t, input, now), at)
  {
    FlushStamped(t, 0, true, at);
    InsertEventStamped(ForceFlush(t), input, now, at);
  }

  lemma {:induction false} FlushKeepsLastId(t: Tables, now: int, force: bool)
    ensures Flush(t, now, force).lastEventId >= t.lastEventId
    decreases |t.fragments|
  {
    if t.fragments != [] {
      var n := GroupLength(t.fragments);
      if force || !NotDue(t.fragments[..n], now) {
        FlushKeepsLastId(PublishGroup(t, n), now, force);
      }
    }
  }

  lemma CreateCheckpointStamped(t: Tables, createdAt: int, base: Option<nat>, reason: Reason, snapshot: Snapshot, at: int)
    requires Stamped(t, at) && at <= createdAt && (base.Some? ==> base.value <= t.lastEventId)
    ensures Stamped(CreateCheckpoint(t, createdAt, base, reason, snapshot), createdAt)
  {
    FlushStamped(t, 0, true, at);
    FlushKeepsLastId(t, 0, true);
    InsertCheckpointStamped(ForceFlush(t), createdAt, base, reason, snapshot, at);
  }

  lemma MaybeCheckpointStamped(w: World, now: int, at: int)
    requires Stamped(w.t, at) && at <= now
    ensures Stamped(MaybeCheckpoint(w, now).t, now)
  {
    StampedLater(w.t, at, now);
    if CheckpointDue(w, now) {
      var latest := OrZero(LatestEventId(w.t));
      if w.t.events != [] {
        assert w.t.events[|w.t.events| - 1] in w.t.events;
      }
      CreateCheckpointStamped(w.t, now, if latest == 0 then None else Some(latest), Periodic, w.live, at);
    }
  }

  lemma FlushRecorderStamped(w: World, now: int, at: int)
    requires Stamped(w.t, at) && at <= now
    ensures Stamped(FlushRecorder(w, now).t, now)
  {
    FlushStamped(w.t, 0, true, at);
    StampedLater(ForceFlush(w.t), at, now);
    MaybeCheckpointStamped(w.(t := ForceFlush(w.t)), now, at);
  }

  /* -------------------------------------------------------------------- one step at a time */

  /**
   * The step reads the clock in order, never before `at`, and no event is stamped later than the reading that follows
   * it. An event may be stamped as much earlier as it likes: what an account did is noted on a board later.
   */
  predicate Ticks(s: Step, at: int) {
    match s
    case Push(after, input, key) => true
    case Immediate(after, input, now) => at <= now && input.createdAt <= now
    case Untracked(after) => true
    case Note(input, now) => at <= now && input.createdAt <= now
    case CutShort(input) => true
    case TimerFlush(now) => at <= now
    case DueFlush(now) => true
    case Reopen(now, importedAt) => at <= importedAt
    case Snap(note, flushedAt, createdAt) => at <= flushedAt <= createdAt && note.createdAt <= createdAt
    case Rewind(r) =>
      && at <= r.flushedAt <= r.startedAt <= r.completedAt
      && r.started.createdAt <= r.startedAt && r.completed.createdAt <= r.completedAt
    case Compact(cal, settings, apply) => true
  }

  function Latest(a: int, b: int): int {
    if a < b then b else a
  }

  /** The last reading there has been once the step is made, or the stamp of an event that came without one. */
  function Tock(s: Step, at: int): int {
    match s
    case Push(after, input, key) => Latest(at, input.createdAt)
    case Immediate(after, input, now) => now
    case Untracked(after) => at
    case Note(input, now) => now
    case CutShort(input) => Latest(at, input.createdAt)
    case TimerFlush(now) => now
    case DueFlush(now) => at
    case Reopen(now, importedAt) => importedAt
    case Snap(note, flushedAt, createdAt) => createdAt
    case Rewind(r) => r.completedAt
    case Compact(cal, settings, apply) => at
  }

  lemma RecordStamped(w: World, input: EventInput, now: int, at: int)
    requires Stamped(w.t, at) && at <= now && input.createdAt <= now
    ensures Stamped(RecordSynchronousEvent(w, input, now).t, now)
  {
    StampedLater(w.t, at, now);
    AppendEventStamped(w.t, input, States(w.live), now);
    MaybeCheckpointStamped(w.(t := AppendEvent(w.t, input, States(w.live))), now, now);
  }

  lemma OpenStamped(w: World, now: int, importedAt: int, at: int)
    requires Stamped(w.t, at) && at <= importedAt
    ensures Stamped(Open(w, now, importedAt).t, importedAt)
  {
    var t := ForceFlush(w.t);
    FlushStamped(w.t, 0, true, at);
    StampedLater(t, at, importedAt);
    if t.checkpoints == [] {
      var input := EventInput(SYSTEM_IMPORT, importedAt, map["legacyImport" := "true"], [], Some(w.live.documentClock));
      InsertEventStamped(t, input, States(w.live), importedAt);
      var t1 := InsertEvent(t, input, States(w.live));
      InsertCheckpointStamped(t1, importedAt, Some(t1.lastEventId), LegacyImport, w.live, importedAt);
    }
  }

  lemma SnapStamped(w: World, note: EventInput, flushedAt: int, createdAt: int, at: int)
    requires Stamped(w.t, at) && at <= flushedAt <= createdAt && note.createdAt <= createdAt
    ensures Stamped(CreateRoomCheckpoint(w, note, flushedAt, createdAt).t, createdAt)
  {
    var w1 := FlushRecorder(w, flushedAt);
    FlushRecorderStamped(w, flushedAt, at);
    StampedLater(w1.t, flushedAt, createdAt);
    AppendEventStamped(w1.t, note, States(w1.live), createdAt);
    var t := AppendEvent(w1.t, note, States(w1.live));
    CreateCheckpointStamped(t, createdAt, Some(t.lastEventId), Explicit, w1.live, createdAt);
  }

  /** A note with its checkpoint. */
  lemma NotedStamped(t: Tables, input: EventInput, now: Docs, createdAt: int, reason: Reason, snapshot: Snapshot, at: int)
    requires Stamped(t, at) && at <= createdAt && input.createdAt <= createdAt
    ensures var t1 := InsertEvent(t, input, now);
            Stamped(InsertCheckpoint(t1, createdAt, Some(t1.lastEventId), reason, snapshot), createdAt)
  {
    StampedLater(t, at, createdAt);
    InsertEventStamped(t, input, now, createdAt);
    var t1 := InsertEvent(t, input, now);
    InsertCheckpointStamped(t1, createdAt, Some(t1.lastEventId), reason, snapshot, createdAt);
  }

  lemma RestoreStamped(w: World, r: Restore, at: int)
    requires Stamped(w.t, at) && Ticks(Rewind(r), at)
    ensures Stamped(RestoreVersion(w, r).t, r.completedAt)
  {
    var w1 := FlushRecorder(w, r.flushedAt);
    FlushRecorderStamped(w, r.flushedAt, at);
    StampedLater(w1.t, r.flushedAt, r.completedAt);
    if RestoreAccepted(w, r) {
      FlushStamped(w1.t, 0, true, r.flushedAt);
      NotedStamped(ForceFlush(w1.t), r.started, States(w1.live), r.startedAt, PreRestore, w1.live, r.flushedAt);
      var prepared := PrepareRestore(ForceFlush(w1.t), r, w1.live);
      FlushStamped(prepared, 0, true, r.startedAt);
      NotedStamped(ForceFlush(prepared), r.completed, States(r.loaded), r.completedAt, RestoreCompleted, r.loaded, r.startedAt);
    }
  }

  lemma StepStamped(w: World, s: Step, at: int)
    requires Trusted(w) && Stamped(w.t, at) && Ticks(s, at)
    ensures Stamped(Next(w, s).t, Tock(s, at))
  {
    match s
    case Push(after, input, key) => StampedLater(w.t, at, Latest(at, input.createdAt));
    case Immediate(after, input, now) => RecordStamped(w.(live := after), input, now, at);
    case Untracked(after) =>
    case Note(input, now) => RecordStamped(w, input, now, at);
    case CutShort(input) =>
      StampedLater(w.t, at, Latest(at, input.createdAt));
      AppendEventStamped(w.t, input, States(w.live), Latest(at, input.createdAt));
    case TimerFlush(now) => FlushRecorderStamped(w, now, at);
    case DueFlush(now) => FlushStamped(w.t, now, false, at);
    case Reopen(now, importedAt) => OpenStamped(w, now, importedAt, at);
    case Snap(note, flushedAt, createdAt) => SnapStamped(w, note, flushedAt, createdAt, at);
    case Rewind(r) => RestoreStamped(w, r, at);
    case Compact(cal, settings, apply) => PassStamped(w.t, cal, settings, apply, at);
  }

  lemma PassStamped(t: Tables, cal: Calendar, s: Settings, apply: bool, at: int)
    requires Stamped(t, at) && AscendingEvents(t.events) && AscendingCheckpoints(t.checkpoints)
    ensures Stamped(AfterPass(cal, t, s, apply), at)
  {
    Survivors(cal, t, s);
  }

  /* ------------------------------------------------------------------------------- runs */

  /** The clock never runs backwards along the run, and no event is stamped in the future. */
  predicate Timed(steps: seq<Step>, at: int)
    decreases |steps|
  {
    steps == [] || (Ticks(steps[0], at) && Timed(steps[1..], Tock(steps[0], at)))
  }

  /** A page of account events, however old, projected at readings in order. */
  lemma {:induction false} ProjectedPageIsTimed(page: seq<EventInput>, readings: seq<int>, at: int)
    requires |readings| == |page| && InOrder(readings, at) && forall i :: 0 <= i < |page| ==> page[i].createdAt <= readings[i]
    ensures Timed(Notes(page, readings), at)
    decreases |page|
  {
    if page != [] {
      ProjectedPageIsTimed(page[1..], readings[1..], readings[0]);
      assert Notes(page, readings)[1..] == Notes(page[1..], readings[1..]);
    }
  }

  predicate InOrder(readings: seq<int>, at: int)
    decreases |readings|
  {
    readings == [] || (at <= readings[0] && InOrder(readings[1..], readings[0]))
  }

  lemma {:induction false} RunStamped(w: World, steps: seq<Step>, at: int) returns (last: int)
    requires Trusted(w) && IsRun(w, steps) && Stamped(w.t, at) && Timed(steps, at)
    ensures Stamped(Run(w, steps).t, last)
    decreases |steps|
  {
    last := at;
    if steps != [] {
      StepKeepsTrusted(w, steps[0]);
      StepStamped(w, steps[0], at);
      last := RunStamped(Next(w, steps[0]), steps[1..], Tock(steps[0], at));
    }
  }

  /**
   * On any board whose clock never ran backwards, whatever was noted on it however late, a compaction pass takes no event of the full-resolution window, no
   * checkpoint a person made and none that is recent enough.
   */
  lemma RecentHistoryOfABoardIsUntouched(live: Snapshot, policy: Policy, now: int, importedAt: int, steps: seq<Step>, cal: Calendar, s: Settings)
    requires IsRun(FirstOpen(live, policy, now, importedAt), steps) && Timed(steps, importedAt)
    ensures var t := Run(FirstOpen(live, policy, now, importedAt), steps).t;
            var t' := Delete(t, PlanOf(cal, t, s));
            && (forall e :: e in t.events && e.input.createdAt >= DetailedCutoff(s) ==> e in t'.events)
            && (forall c :: c in t.checkpoints && (!Automatic(c) || c.createdAt >= CheckpointCutoff(s)) ==> c in t'.checkpoints)
  {
    var w0 := FirstOpen(live, policy, now, importedAt);
    FirstOpenIsTrusted(live, policy, now, importedAt);
    OpenStamped(World(EmptyTables(States(live)), live, policy, 0, 0), now, importedAt, importedAt);
    var last := RunStamped(w0, steps, importedAt);
    RunKeepsTrusted(w0, steps);
    RecentHistoryIsUntouched(cal, Run(w0, steps).t, s);
  }
}
