/**
 * A board over its whole life: pushes, immediate events, flushes, crashes and restarts, checkpoints,
 * restores and compaction passes, in any order. What the server does in each step, and what holds in
 * every run.
 */
module BoardRuns {
  import opened Wrappers
  import opened Records
  import opened Snapshots
  import opened Tables
  import opened Compaction
  import opened CompactionPass
  import opened HistoryInvariant

  /** Recorder settings: coalescing window, and how often an automatic checkpoint is due. */
  datatype Policy = Policy(coalesceMs: int, snapshotEveryEvents: int, snapshotEveryMs: int)

  /** The tables, the live tldraw snapshot, and the recorder's two marks, which a crash loses. */
  datatype World = World(t: Tables, live: Snapshot, policy: Policy, eventsAtLastSnapshot: nat, lastSnapshotAt: int)

  function EmptyTables(initial: Docs): Tables {
    Tables([], [], [], 0, 0, 0, Trail([], [initial], map[]))
  }

  /* ------------------------------------------------------------------ recorder */

  function OrZero(id: Option<nat>): nat {
    if id.Some? then id.value else 0
  }

  predicate CheckpointDue(w: World, now: int) {
    || OrZero(LatestEventId(w.t)) - w.eventsAtLastSnapshot >= w.policy.snapshotEveryEvents
    || now - w.lastSnapshotAt >= w.policy.snapshotEveryMs
  }

  function MaybeCheckpoint(w: World, now: int): World {
    var latest := OrZero(LatestEventId(w.t));
    if !CheckpointDue(w, now) then w
    else w.(t := CreateCheckpoint(w.t, now, if latest == 0 then None else Some(latest), Periodic, w.live),
            eventsAtLastSnapshot := latest, lastSnapshotAt := now)
  }

  function RecordSynchronousEvent(w: World, input: EventInput, now: int): World {
    MaybeCheckpoint(w.(t := AppendEvent(w.t, input, States(w.live))), now)
  }

  function RecordHumanFragment(w: World, input: EventInput, key: string): World {
    w.(t := AppendFragment(w.t, input, key, input.createdAt + w.policy.coalesceMs, States(w.live)))
  }

  function FlushRecorder(w: World, now: int): World {
    var t := ForceFlush(w.t);
    if |t.events| > |w.t.events| then MaybeCheckpoint(w.(t := t), now) else w.(t := t)
  }

  /** A fresh recorder over whatever the last process committed, then the legacy import if there is no origin yet. */
  function Open(w: World, now: int, importedAt: int): World {
    var t := ForceFlush(w.t);
    w.(t := EnsureLegacyImport(t, w.live, importedAt),
       eventsAtLastSnapshot := OrZero(LatestEventId(t)), lastSnapshotAt := NewestCheckpointTime(t, now))
  }

  /* ---------------------------------------------------------------------- room */

  function CreateRoomCheckpoint(w: World, note: EventInput, flushedAt: int, createdAt: int): World {
    var w1 := FlushRecorder(w, flushedAt);
    var t := AppendEvent(w1.t, note, States(w1.live));
    w1.(t := CreateCheckpoint(t, createdAt, Some(t.lastEventId), Explicit, w1.live))
  }

  /** The restore request, with the clock readings and the snapshot the storage ends up with after loading. */
  datatype Restore = Restore(eventId: nat, expectedClock: int, flushedAt: int, startedAt: int, completedAt: int,
                             started: EventInput, completed: EventInput, loaded: Snapshot)

  function PrepareRestore(t: Tables, r: Restore, current: Snapshot): Tables {
    var t1 := InsertEvent(t, r.started, States(current));
    InsertCheckpoint(t1, r.startedAt, Some(t1.lastEventId), PreRestore, current)
  }

  function CompleteRestore(t: Tables, r: Restore): Tables {
    var t1 := InsertEvent(ForceFlush(t), r.completed, States(r.loaded));
    InsertCheckpoint(t1, r.completedAt, Some(t1.lastEventId), RestoreCompleted, r.loaded)
  }

  /** What the restore finds once the pending edits are published. */
  function RestoreTarget(w: World, r: Restore): Result<Reconstruction, HistoryError> {
    Reconstruct(ForceFlush(FlushRecorder(w, r.flushedAt).t), AtEvent(r.eventId))
  }

  predicate RestoreAccepted(w: World, r: Restore) {
    w.live.documentClock == r.expectedClock && RestoreTarget(w, r).Ok?
  }

  /** A stale clock or an unknown event aborts the storage transaction; the flush before it stays. */
  function RestoreVersion(w: World, r: Restore): World {
    var w1 := FlushRecorder(w, r.flushedAt);
    if !RestoreAccepted(w, r) then w1
    else w1.(t := CompleteRestore(PrepareRestore(ForceFlush(w1.t), r, w1.live), r), live := r.loaded)
  }

  /* ---------------------------------------------------------------------- steps */

  /**
   * `CutShort` is a note, or the note of an explicit checkpoint, whose process died before the checkpoint that was to
   * follow it; dying any earlier is a `Reopen` alone, and recording a change of documents is one transaction.
   */
  datatype Step =
    | Push(after: Snapshot, input: EventInput, key: string)
    | Immediate(after: Snapshot, input: EventInput, now: int)
    | Untracked(after: Snapshot)
    | Note(input: EventInput, now: int)
    | CutShort(input: EventInput)
    | TimerFlush(now: int)
    | DueFlush(now: int)
    | Reopen(now: int, importedAt: int)
    | Snap(note: EventInput, flushedAt: int, createdAt: int)
    | Rewind(restore: Restore)
    | Compact(cal: Calendar, settings: Settings, apply: bool)

  /** The committed storage transaction carries the diff of the document map, and the document clock rose. */
  ghost predicate CommittedDiff(w: World, after: Snapshot, input: EventInput) {
    && after.documentClock > w.live.documentClock
    && input.documentClock == Some(after.documentClock)
    && IsDiff(States(w.live), States(after), input.changes)
  }

  /** The started note carries no changes, and an accepted restore loads the target's documents. */
  ghost predicate LoadsTarget(w: World, r: Restore) {
    r.started.changes == [] && (RestoreAccepted(w, r) ==> States(r.loaded) == States(RestoreTarget(w, r).value.snapshot))
  }

  /** The restore with its completed event carrying these changes. */
  function Completing(r: Restore, changes: seq<Change>): Restore {
    r.(completed := r.completed.(changes := changes))
  }

  /**
   * What the surroundings guarantee: documents change only in transactions that rise the clock and carry
   * a context, a note carries no changes, and loading a snapshot replaces the document map by it.
   */
  ghost predicate Enabled(w: World, s: Step) {
    match s
    case Push(after, input, key) => CommittedDiff(w, after, input) && input.header.source == Human
    case Immediate(after, input, now) => CommittedDiff(w, after, input)
    case Untracked(after) => States(after) == States(w.live)
    case Note(input, now) => input.changes == []
    case CutShort(input) => input.changes == []
    case TimerFlush(now) => true
    case DueFlush(now) => true
    case Reopen(now, importedAt) => true
    case Snap(note, flushedAt, createdAt) => note.changes == []
    case Rewind(r) => LoadsTarget(w, r) && (RestoreAccepted(w, r) ==> IsDiff(States(w.live), States(r.loaded), r.completed.changes))
    case Compact(cal, settings, apply) => true
  }

  function Next(w: World, s: Step): World {
    match s
    case Push(after, input, key) => RecordHumanFragment(w.(live := after), input, key)
    case Immediate(after, input, now) => RecordSynchronousEvent(w.(live := after), input, now)
    case Untracked(after) => w.(live := after)
    case Note(input, now) => RecordSynchronousEvent(w, input, now)
    case CutShort(input) => w.(t := AppendEvent(w.t, input, States(w.live)))
    case TimerFlush(now) => FlushRecorder(w, now)
    case DueFlush(now) => w.(t := Flush(w.t, now, false))
    case Reopen(now, importedAt) => Open(w, now, importedAt)
    case Snap(note, flushedAt, createdAt) => CreateRoomCheckpoint(w, note, flushedAt, createdAt)
    case Rewind(r) => RestoreVersion(w, r)
    case Compact(cal, settings, apply) => w.(t := AfterPass(cal, w.t, settings, apply))
  }

  ghost predicate IsRun(w: World, steps: seq<Step>)
    decreases |steps|
  {
    steps == [] || (Enabled(w, steps[0]) && IsRun(Next(w, steps[0]), steps[1..]))
  }

  function Run(w: World, steps: seq<Step>): World
    decreases |steps|
  {
    if steps == [] then w else Run(Next(w, steps[0]), steps[1..])
  }

  /** A board opened for the first time over whatever documents it already has. */
  function FirstOpen(live: Snapshot, policy: Policy, now: int, importedAt: int): World {
    Open(World(EmptyTables(States(live)), live, policy, 0, 0), now, importedAt)
  }

  /** One note after another. */
  function Notes(page: seq<EventInput>, readings: seq<int>): seq<Step>
    requires |readings| == |page|
  {
    seq(|page|, i requires 0 <= i < |page| => Note(page[i], readings[i]))
  }

  /* -------------------------------------------------------------- the invariant */

  ghost predicate Trusted(w: World) {
    Sound(w.t, States(w.live))
  }

  lemma FirstOpenIsTrusted(live: Snapshot, policy: Policy, now: int, importedAt: int)
    ensures Trusted(FirstOpen(live, policy, now, importedAt))
  {
    var w := FirstOpen(live, policy, now, importedAt);
    var docs := States(live);
    assert w.t.trail.asOf == [docs, docs];
    assert w.t.events[0] in w.t.events;
    assert w.t.trail.log == w.t.events;
    assert EventIds(w.t.events) == {1};
    assert Replay(docs, w.t.trail.log[0].input.changes) == Some(docs);
    assert Faithful(w.t.checkpoints[0], w.t);
  }

  lemma ExtendsTransitive(a: Tables, b: Tables, c: Tables)
    requires Extends(a, b) && Extends(b, c)
    ensures Extends(a, c)
  {
  }

  lemma ForceFlushKeepsSound(t: Tables, now: Docs)
    requires Sound(t, now)
    ensures Sound(ForceFlush(t), now) && Extends(t, ForceFlush(t)) && ForceFlush(t).fragments == []
    ensures ForceFlush(t).checkpoints == t.checkpoints
  {
    FlushKeepsSound(t, now, 0, true);
    FlushConsumesPrefix(t, 0, true);
  }

  lemma FlushOfNothing(t: Tables)
    ensures t.fragments == [] ==> ForceFlush(t) == t
  {
  }

  lemma AppendEventKeepsSound(t: Tables, input: EventInput, now: Docs, next: Docs)
    requires Sound(t, now) && Replay(now, input.changes) == Some(next)
    ensures var t' := AppendEvent(t, input, next);
            && Sound(t', next) && Extends(t, t') && t'.fragments == []
            && LatestEventId(t') == Some(t'.lastEventId)
  {
    ForceFlushKeepsSound(t, now);
    InsertEventKeepsSound(ForceFlush(t), input, now, next);
  }

  /** A checkpoint of the live board based on the newest event is sound. */
  lemma CreateCheckpointKeepsSound(t: Tables, live: Snapshot, createdAt: int, reason: Reason)
    requires Sound(t, States(live)) && t.fragments == []
    ensures var t' := CreateCheckpoint(t, createdAt, Some(t.lastEventId), reason, live);
            Sound(t', States(live)) && Extends(t, t') && t'.fragments == []
  {
    FlushOfNothing(t);
    InsertCheckpointKeepsSound(t, States(live), createdAt, reason, live);
  }

  /** An automatic checkpoint is only ever taken right after an event, so its base is the newest one. */
  lemma MaybeCheckpointKeepsTrusted(w: World, now: int)
    requires Trusted(w) && w.t.fragments == [] && LatestEventId(w.t) == Some(w.t.lastEventId)
    ensures var w' := MaybeCheckpoint(w, now);
            Trusted(w') && w'.live == w.live && Extends(w.t, w'.t) && w'.t.fragments == [] && w'.t.lastEventId == w.t.lastEventId
  {
    assert w.t.events[|w.t.events| - 1] in w.t.events;
    CreateCheckpointKeepsSound(w.t, w.live, now, Periodic);
    FlushOfNothing(w.t);
  }

  lemma FlushWroteTheNewest(t: Tables)
    ensures |ForceFlush(t).events| > |t.events| ==> LatestEventId(ForceFlush(t)) == Some(ForceFlush(t).lastEventId)
  {
    FlushOnlyAppends(t, 0, true);
  }

  lemma FlushRecorderKeepsTrusted(w: World, now: int)
    requires Trusted(w)
    ensures var w' := FlushRecorder(w, now);
            Trusted(w') && w'.live == w.live && Extends(w.t, w'.t) && w'.t.fragments == []
  {
    ForceFlushKeepsSound(w.t, States(w.live));
    FlushWroteTheNewest(w.t);
    var w1 := w.(t := ForceFlush(w.t));
    if |w1.t.events| > |w.t.events| {
      MaybeCheckpointKeepsTrusted(w1, now);
      ExtendsTransitive(w.t, w1.t, MaybeCheckpoint(w1, now).t);
    }
  }

  lemma SynchronousEventKeepsTrusted(w: World, now: Docs, input: EventInput, at: int)
    requires Sound(w.t, now) && Replay(now, input.changes) == Some(States(w.live))
    ensures var w' := RecordSynchronousEvent(w, input, at);
            Trusted(w') && w'.live == w.live && Extends(w.t, w'.t) && w'.t.fragments == []
  {
    AppendEventKeepsSound(w.t, input, now, States(w.live));
    MaybeCheckpointKeepsTrusted(w.(t := AppendEvent(w.t, input, States(w.live))), at);
  }

  lemma OpenKeepsTrusted(w: World, now: int, importedAt: int)
    requires Trusted(w)
    ensures Trusted(Open(w, now, importedAt)) && Extends(w.t, Open(w, now, importedAt).t)
  {
    ForceFlushKeepsSound(w.t, States(w.live));
  }

  lemma CheckpointKeepsTrusted(w: World, note: EventInput, flushedAt: int, createdAt: int)
    requires Trusted(w) && note.changes == []
    ensures var w' := CreateRoomCheckpoint(w, note, flushedAt, createdAt);
            Trusted(w') && Extends(w.t, w'.t) && w'.t.fragments == [] && w'.live == w.live
  {
    FlushRecorderKeepsTrusted(w, flushedAt);
    var w1 := FlushRecorder(w, flushedAt);
    AppendEventKeepsSound(w1.t, note, States(w1.live), States(w1.live));
    CreateCheckpointKeepsSound(AppendEvent(w1.t, note, States(w1.live)), w1.live, createdAt, Explicit);
  }

  lemma PrepareRestoreKeepsSound(t: Tables, r: Restore, live: Snapshot)
    requires Sound(t, States(live)) && t.fragments == [] && r.started.changes == []
    ensures var t' := PrepareRestore(t, r, live);
            && Sound(t', States(live)) && Extends(t, t') && t'.fragments == []
            && t'.lastEventId == t.lastEventId + 1 && t'.trail.asOf[t'.lastEventId] == States(live)
            && t.events <= t'.events && t.checkpoints <= t'.checkpoints
            && t'.lastEventId in EventIds(t'.events)
  {
    InsertEventKeepsSound(t, r.started, States(live), States(live));
    var t1 := InsertEvent(t, r.started, States(live));
    assert t1.events[|t1.events| - 1] in t1.events;
    InsertCheckpointKeepsSound(t1, States(live), r.startedAt, PreRestore, live);
  }

  lemma CompleteRestoreKeepsSound(t: Tables, r: Restore, live: Snapshot)
    requires Sound(t, States(live)) && t.fragments == []
    requires Replay(States(live), r.completed.changes) == Some(States(r.loaded))
    ensures var t' := CompleteRestore(t, r);
            && Sound(t', States(r.loaded)) && Extends(t, t') && t'.fragments == []
            && t.events <= t'.events && t.checkpoints <= t'.checkpoints
  {
    FlushOfNothing(t);
    InsertEventKeepsSound(t, r.completed, States(live), States(r.loaded));
    InsertCheckpointKeepsSound(InsertEvent(t, r.completed, States(r.loaded)), States(r.loaded), r.completedAt, RestoreCompleted, r.loaded);
  }

  /** The stages of an accepted restore: flushed, prepared, completed. */
  lemma AcceptedRestore(w: World, r: Restore) returns (w1: World, prepared: Tables)
    requires Trusted(w) && Enabled(w, Rewind(r)) && RestoreAccepted(w, r)
    ensures w1 == FlushRecorder(w, r.flushedAt) && w1.live == w.live && Trusted(w1) && Extends(w.t, w1.t)
    ensures prepared == PrepareRestore(w1.t, r, w1.live) && w1.t.fragments == [] && ForceFlush(w1.t) == w1.t
    ensures Sound(prepared, States(w.live)) && Extends(w1.t, prepared) && prepared.fragments == []
    ensures RestoreVersion(w, r) == w1.(t := CompleteRestore(prepared, r), live := r.loaded)
    ensures w1.t.events <= prepared.events && w1.t.checkpoints <= prepared.checkpoints
    ensures prepared.lastEventId == StartedEventId(w, r) && prepared.lastEventId in EventIds(prepared.events)
    ensures prepared.trail.asOf[prepared.lastEventId] == States(w.live)
  {
    w1 := FlushRecorder(w, r.flushedAt);
    FlushRecorderKeepsTrusted(w, r.flushedAt);
    FlushOfNothing(w1.t);
    prepared := PrepareRestore(w1.t, r, w1.live);
    PrepareRestoreKeepsSound(w1.t, r, w1.live);
  }

  lemma CompletedRestore(w: World, r: Restore, prepared: Tables)
    requires Enabled(w, Rewind(r)) && RestoreAccepted(w, r)
    requires Sound(prepared, States(w.live)) && prepared.fragments == []
    ensures var t' := CompleteRestore(prepared, r);
            && Sound(t', States(r.loaded)) && Extends(prepared, t') && t'.fragments == []
            && prepared.events <= t'.events && prepared.checkpoints <= t'.checkpoints
    ensures States(r.loaded) == States(RestoreTarget(w, r).value.snapshot)
  {
    ReplayIffDiff(States(w.live), States(r.loaded), r.completed.changes);
    CompleteRestoreKeepsSound(prepared, r, w.live);
  }

  lemma RejectedRestore(w: World, r: Restore)
    requires !RestoreAccepted(w, r)
    ensures RestoreVersion(w, r) == FlushRecorder(w, r.flushedAt)
  {
  }

  lemma RestoreKeepsTrusted(w: World, r: Restore)
    requires Trusted(w) && Enabled(w, Rewind(r))
    ensures Trusted(RestoreVersion(w, r)) && Extends(w.t, RestoreVersion(w, r).t)
    ensures RestoreVersion(w, r).t.fragments == []
    ensures if RestoreAccepted(w, r) then States(RestoreVersion(w, r).live) == States(RestoreTarget(w, r).value.snapshot)
            else RestoreVersion(w, r).live == w.live
  {
    if RestoreAccepted(w, r) {
      var w1, prepared := AcceptedRestore(w, r);
      CompletedRestore(w, r, prepared);
      ExtendsTransitive(w.t, w1.t, prepared);
      ExtendsTransitive(w.t, prepared, CompleteRestore(prepared, r));
    } else {
      RejectedRestore(w, r);
      FlushRecorderKeepsTrusted(w, r.flushedAt);
    }
  }

  lemma CompactKeepsTrusted(w: World, cal: Calendar, s: Settings, apply: bool)
    requires Trusted(w)
    ensures Trusted(w.(t := AfterPass(cal, w.t, s, apply))) && Extends(w.t, AfterPass(cal, w.t, s, apply))
  {
    DeleteKeepsSound(cal, w.t, s, States(w.live));
  }

  lemma PushKeepsTrusted(w: World, after: Snapshot, input: EventInput, key: string)
    requires Trusted(w) && CommittedDiff(w, after, input)
    ensures Trusted(Next(w, Push(after, input, key))) && Extends(w.t, Next(w, Push(after, input, key)).t)
  {
    ReplayIffDiff(States(w.live), States(after), input.changes);
    AppendFragmentKeepsSound(w.t, input, key, input.createdAt + w.policy.coalesceMs, States(w.live), States(after));
  }

  lemma ImmediateKeepsTrusted(w: World, after: Snapshot, input: EventInput, now: int)
    requires Trusted(w) && CommittedDiff(w, after, input)
    ensures Trusted(Next(w, Immediate(after, input, now))) && Extends(w.t, Next(w, Immediate(after, input, now)).t)
  {
    ReplayIffDiff(States(w.live), States(after), input.changes);
    SynchronousEventKeepsTrusted(w.(live := after), States(w.live), input, now);
  }

  /** Every step of the server keeps history faithful and rewrites none of it. */
  lemma StepKeepsTrusted(w: World, s: Step)
    requires Trusted(w) && Enabled(w, s)
    ensures Trusted(Next(w, s)) && Extends(w.t, Next(w, s).t)
  {
    match s
    case Push(after, input, key) => PushKeepsTrusted(w, after, input, key);
    case Immediate(after, input, now) => ImmediateKeepsTrusted(w, after, input, now);
    case Untracked(after) =>
    case Note(input, now) => SynchronousEventKeepsTrusted(w, States(w.live), input, now);
    case CutShort(input) => AppendEventKeepsSound(w.t, input, States(w.live), States(w.live));
    case TimerFlush(now) => FlushRecorderKeepsTrusted(w, now);
    case DueFlush(now) => FlushKeepsSound(w.t, States(w.live), now, false);
    case Reopen(now, importedAt) => OpenKeepsTrusted(w, now, importedAt);
    case Snap(note, flushedAt, createdAt) => CheckpointKeepsTrusted(w, note, flushedAt, createdAt);
    case Rewind(r) => RestoreKeepsTrusted(w, r);
    case Compact(cal, settings, apply) => CompactKeepsTrusted(w, cal, settings, apply);
  }

  lemma {:induction false} RunKeepsTrusted(w: World, steps: seq<Step>)
    requires Trusted(w) && IsRun(w, steps)
    ensures Trusted(Run(w, steps)) && Extends(w.t, Run(w, steps).t)
    decreases |steps|
  {
    if steps != [] {
      StepKeepsTrusted(w, steps[0]);
      RunKeepsTrusted(Next(w, steps[0]), steps[1..]);
    }
  }

  /* ---------------------------------------------------------------- main results */

  /**
   * In every run, at its end, every event still stored and every checkpoint still stored rebuilds without
   * divergence to the document map the observer noted for it.
   */
  lemma EveryRunRebuilds(live: Snapshot, policy: Policy, now: int, importedAt: int, steps: seq<Step>)
    requires IsRun(FirstOpen(live, policy, now, importedAt), steps)
    ensures var t := Run(FirstOpen(live, policy, now, importedAt), steps).t;
            && (forall y :: y in EventIds(t.events) ==>
                  Reconstruct(t, AtEvent(y)).Ok? && y < |t.trail.asOf| && States(Reconstruct(t, AtEvent(y)).value.snapshot) == t.trail.asOf[y])
            && (forall c :: c in t.checkpoints ==>
                  Reconstruct(t, AtCheckpoint(c.id)).Ok? && BaseOf(c) < |t.trail.asOf| && States(Reconstruct(t, AtCheckpoint(c.id)).value.snapshot) == t.trail.asOf[BaseOf(c)])
  {
    var w0 := FirstOpen(live, policy, now, importedAt);
    FirstOpenIsTrusted(live, policy, now, importedAt);
    RunKeepsTrusted(w0, steps);
    var w := Run(w0, steps);
    forall y | y in EventIds(w.t.events)
      ensures Reconstruct(w.t, AtEvent(y)).Ok? && y < |w.t.trail.asOf|
      ensures States(Reconstruct(w.t, AtEvent(y)).value.snapshot) == w.t.trail.asOf[y]
    {
      EveryStoredEventRebuilds(w.t, States(w.live), y);
    }
    forall c | c in w.t.checkpoints
      ensures Reconstruct(w.t, AtCheckpoint(c.id)).Ok? && BaseOf(c) < |w.t.trail.asOf|
      ensures States(Reconstruct(w.t, AtCheckpoint(c.id)).value.snapshot) == w.t.trail.asOf[BaseOf(c)]
    {
      EveryCheckpointRebuilds(w.t, States(w.live), c);
      assert Faithful(c, w.t);
    }
  }

  /**
   * Time travel, in terms of the board alone. Take any moment of any run at which no edit is staged, and
   * the newest event then: whatever happens afterwards, restarts, restores and compactions included, as
   * long as that event is still stored it rebuilds to exactly the documents that were live at that moment.
   */
  lemma TimeTravel(live: Snapshot, policy: Policy, now: int, importedAt: int, past: seq<Step>, later: seq<Step>)
    requires IsRun(FirstOpen(live, policy, now, importedAt), past)
    requires IsRun(Run(FirstOpen(live, policy, now, importedAt), past), later)
    ensures var moment := Run(FirstOpen(live, policy, now, importedAt), past);
            var today := Run(moment, later);
            moment.t.fragments == [] && moment.t.lastEventId in EventIds(today.t.events) ==>
              && Reconstruct(today.t, AtEvent(moment.t.lastEventId)).Ok?
              && States(Reconstruct(today.t, AtEvent(moment.t.lastEventId)).value.snapshot) == States(moment.live)
  {
    var w0 := FirstOpen(live, policy, now, importedAt);
    FirstOpenIsTrusted(live, policy, now, importedAt);
    RunKeepsTrusted(w0, past);
    var w1 := Run(w0, past);
    RunKeepsTrusted(w1, later);
    var w2 := Run(w1, later);
    if w1.t.fragments == [] && w1.t.lastEventId in EventIds(w2.t.events) {
      MomentRebuilds(w1, w2);
    }
  }

  /** With nothing staged, the newest event of an earlier moment stands for the documents live then. */
  lemma MomentRebuilds(moment: World, today: World)
    requires Trusted(moment) && Trusted(today) && Extends(moment.t, today.t)
    requires moment.t.fragments == [] && moment.t.lastEventId in EventIds(today.t.events)
    ensures Reconstruct(today.t, AtEvent(moment.t.lastEventId)).Ok?
    ensures States(Reconstruct(today.t, AtEvent(moment.t.lastEventId)).value.snapshot) == States(moment.live)
  {
    EveryStoredEventRebuilds(today.t, States(today.live), moment.t.lastEventId);
    assert today.t.trail.asOf[moment.t.lastEventId] == moment.t.trail.asOf[moment.t.lastEventId];
  }

  /**
   * A document map that was live right after a push can be got back: flush it, and the newest event then,
   * for as long as it is stored, rebuilds to exactly that map, whatever has happened since.
   */
  lemma PushedStateIsReachable(w: World, after: Snapshot, input: EventInput, key: string, now: int, later: seq<Step>)
    requires Trusted(w) && Enabled(w, Push(after, input, key))
    requires IsRun(FlushRecorder(Next(w, Push(after, input, key)), now), later)
    ensures var flushed := FlushRecorder(Next(w, Push(after, input, key)), now);
            var today := Run(flushed, later);
            && flushed.t.fragments == [] && States(flushed.live) == States(after)
            && (flushed.t.lastEventId in EventIds(today.t.events) ==>
                  && Reconstruct(today.t, AtEvent(flushed.t.lastEventId)).Ok?
                  && States(Reconstruct(today.t, AtEvent(flushed.t.lastEventId)).value.snapshot) == States(after))
  {
    var pushed := Next(w, Push(after, input, key));
    var flushed := FlushRecorder(pushed, now);
    StepKeepsTrusted(w, Push(after, input, key));
    FlushRecorderKeepsTrusted(pushed, now);
    RunKeepsTrusted(flushed, later);
    var today := Run(flushed, later);
    if flushed.t.lastEventId in EventIds(today.t.events) {
      MomentRebuilds(flushed, today);
    }
  }

  /**
   * At every reachable state the newest checkpoint, the events after it and the staged fragments in id
   * order replay to the live document map: nothing a crash could lose is needed to get the board back.
   */
  lemma HistoryReachesThePresent(w: World)
    requires Trusted(w)
    ensures var c := w.t.checkpoints[|w.t.checkpoints| - 1];
            Replay(States(c.snapshot),
                   AllChanges(EventsBetween(w.t.events, BaseOf(c), w.t.lastEventId)) + StagedChanges(w.t.fragments))
            == Some(States(w.live))
  {
    var t := w.t;
    var c := t.checkpoints[|t.checkpoints| - 1];
    assert c in t.checkpoints && Faithful(c, t);
    NewestHasGreatestBase(t.checkpoints);
    forall x | BaseOf(c) < x <= t.lastEventId
      ensures x in EventIds(t.events)
    {
      if x !in EventIds(t.events) {
        DeletedBelowNewestBase(t, x);
        assert false;
      }
    }
    ReplaysTheLog(t, t.lastEventId, BaseOf(c));
    ReplayLog(t, BaseOf(c), t.lastEventId);
    StagedReplay(t.trail.asOf[t.lastEventId], t.fragments, t.trail.pushed, States(w.live));
    ReplayConcat(States(c.snapshot), AllChanges(EventsBetween(t.events, BaseOf(c), t.lastEventId)), StagedChanges(t.fragments));
  }

  lemma DeletedBelowNewestBase(t: Tables, x: nat)
    requires Ledger(t) && Covered(t) && 1 <= x <= t.lastEventId && x !in EventIds(t.events)
    ensures exists c :: c in t.checkpoints && x <= BaseOf(c)
  {
    assert Bridged(t, x, |t.trail.log|);
  }

  lemma NewestHasGreatestBase(cs: seq<Checkpoint>)
    requires AscendingCheckpoints(cs) && BasesFollowIds(cs) && cs != []
    ensures forall d :: d in cs ==> BaseOf(d) <= BaseOf(cs[|cs| - 1])
  {
    var last := cs[|cs| - 1];
    forall d | d in cs
      ensures BaseOf(d) <= BaseOf(last)
    {
      var k :| 0 <= k < |cs| && cs[k] == d;
      assert k == |cs| - 1 || d.id < last.id;
      assert last in cs;
    }
  }

  function StagedChanges(fs: seq<Fragment>): seq<Change>
    decreases |fs|
  {
    if fs == [] then [] else fs[0].input.changes + StagedChanges(fs[1..])
  }

  lemma {:induction false} StagedReplay(from: Docs, fs: seq<Fragment>, pushed: map<nat, Docs>, now: Docs)
    requires Leads(from, fs, pushed, now)
    ensures Replay(from, StagedChanges(fs)) == Some(now)
    decreases |fs|
  {
    if fs != [] {
      StagedReplay(pushed[fs[0].id], fs[1..], pushed, now);
      ReplayConcat(from, fs[0].input.changes, StagedChanges(fs[1..]));
    }
  }

  /** A rejected restore changes no document; an accepted one is append-only: no earlier row is touched. */
  lemma RestoreIsAppendOnly(w: World, r: Restore)
    requires Trusted(w) && Enabled(w, Rewind(r))
    ensures var w' := RestoreVersion(w, r);
            && w.t.events <= w'.t.events && w.t.checkpoints <= w'.t.checkpoints
            && (!RestoreAccepted(w, r) ==> w'.live == w.live)
            && (forall y :: y in EventIds(w.t.events) ==>
                  && Reconstruct(w'.t, AtEvent(y)).Ok? && Reconstruct(w.t, AtEvent(y)).Ok?
                  && States(Reconstruct(w'.t, AtEvent(y)).value.snapshot) == States(Reconstruct(w.t, AtEvent(y)).value.snapshot))
            && (forall c :: c in w.t.checkpoints ==>
                  && Reconstruct(w'.t, AtCheckpoint(c.id)).Ok? && Reconstruct(w.t, AtCheckpoint(c.id)).Ok?
                  && States(Reconstruct(w'.t, AtCheckpoint(c.id)).value.snapshot) == States(Reconstruct(w.t, AtCheckpoint(c.id)).value.snapshot))
  {
    var w' := RestoreVersion(w, r);
    RestoreKeepsTrusted(w, r);
    RestoreOnlyAdds(w, r);
    forall c | c in w.t.checkpoints
      ensures Reconstruct(w'.t, AtCheckpoint(c.id)).Ok? && Reconstruct(w.t, AtCheckpoint(c.id)).Ok?
      ensures States(Reconstruct(w'.t, AtCheckpoint(c.id)).value.snapshot) == States(Reconstruct(w.t, AtCheckpoint(c.id)).value.snapshot)
    {
      CheckpointRebuildsAsBefore(w, w', c);
    }
    assert EventIds(w.t.events) <= EventIds(w'.t.events);
    forall y | y in EventIds(w.t.events)
      ensures Reconstruct(w'.t, AtEvent(y)).Ok? && Reconstruct(w.t, AtEvent(y)).Ok?
      ensures States(Reconstruct(w'.t, AtEvent(y)).value.snapshot) == States(Reconstruct(w.t, AtEvent(y)).value.snapshot)
    {
      RebuildsAsBefore(w, w', y);
    }
  }

  lemma RebuildsAsBefore(w: World, w': World, y: nat)
    requires Trusted(w) && Trusted(w') && Extends(w.t, w'.t) && y in EventIds(w.t.events) && y in EventIds(w'.t.events)
    ensures Reconstruct(w'.t, AtEvent(y)).Ok? && Reconstruct(w.t, AtEvent(y)).Ok?
    ensures States(Reconstruct(w'.t, AtEvent(y)).value.snapshot) == States(Reconstruct(w.t, AtEvent(y)).value.snapshot)
  {
    EveryStoredEventRebuilds(w.t, States(w.live), y);
    EveryStoredEventRebuilds(w'.t, States(w'.live), y);
  }

  lemma CheckpointRebuildsAsBefore(w: World, w': World, c: Checkpoint)
    requires Trusted(w) && Trusted(w') && Extends(w.t, w'.t) && c in w.t.checkpoints && c in w'.t.checkpoints
    ensures Reconstruct(w'.t, AtCheckpoint(c.id)).Ok? && Reconstruct(w.t, AtCheckpoint(c.id)).Ok?
    ensures States(Reconstruct(w'.t, AtCheckpoint(c.id)).value.snapshot) == States(Reconstruct(w.t, AtCheckpoint(c.id)).value.snapshot)
  {
    EveryCheckpointRebuilds(w.t, States(w.live), c);
    EveryCheckpointRebuilds(w'.t, States(w'.live), c);
    assert Faithful(c, w.t) && Faithful(c, w'.t);
  }

  lemma FlushRecorderOnlyAdds(w: World, now: int)
    ensures w.t.events <= FlushRecorder(w, now).t.events && w.t.checkpoints <= FlushRecorder(w, now).t.checkpoints
  {
    FlushOnlyAppends(w.t, 0, true);
    FlushConsumesPrefix(w.t, 0, true);
    FlushOfNothing(ForceFlush(w.t));
  }

  ghost predicate OnlyAdds(t: Tables, t': Tables) {
    t.events <= t'.events && t.checkpoints <= t'.checkpoints
  }

  lemma OnlyAddsTransitive(a: Tables, b: Tables, c: Tables)
    requires OnlyAdds(a, b) && OnlyAdds(b, c)
    ensures OnlyAdds(a, c)
  {
  }

  lemma RestoreOnlyAdds(w: World, r: Restore)
    requires Trusted(w) && Enabled(w, Rewind(r))
    ensures OnlyAdds(w.t, RestoreVersion(w, r).t)
  {
    FlushRecorderOnlyAdds(w, r.flushedAt);
    if RestoreAccepted(w, r) {
      var w1, prepared := AcceptedRestore(w, r);
      CompletedRestore(w, r, prepared);
      OnlyAddsTransitive(w.t, w1.t, prepared);
      OnlyAddsTransitive(w.t, prepared, CompleteRestore(prepared, r));
    } else {
      RejectedRestore(w, r);
    }
  }

  /** The id of the restore.started event an accepted restore writes. */
  function StartedEventId(w: World, r: Restore): nat {
    ForceFlush(FlushRecorder(w, r.flushedAt).t).lastEventId + 1
  }

  /** What an accepted restore leaves behind: its restore.started event, which stands for the documents from before it. */
  lemma RestoreLeavesAWayBack(w: World, r: Restore)
    requires Trusted(w) && Enabled(w, Rewind(r)) && RestoreAccepted(w, r)
    ensures var w', started := RestoreVersion(w, r), StartedEventId(w, r);
            && Trusted(w') && started in EventIds(w'.t.events)
            && started < |w'.t.trail.asOf| && w'.t.trail.asOf[started] == States(w.live)
  {
    var w1, prepared := AcceptedRestore(w, r);
    CompletedRestore(w, r, prepared);
    RestoreKeepsTrusted(w, r);
    assert EventIds(prepared.events) <= EventIds(RestoreVersion(w, r).t.events);
  }

  /** Any event still stored can be restored to, given the live clock, and brings back the documents as of that event. */
  lemma StoredEventIsRestorable(w: World, r: Restore)
    requires Trusted(w) && Enabled(w, Rewind(r))
    requires r.eventId in EventIds(w.t.events) && r.expectedClock == w.live.documentClock
    ensures RestoreAccepted(w, r) && r.eventId < |w.t.trail.asOf|
    ensures States(RestoreVersion(w, r).live) == w.t.trail.asOf[r.eventId]
  {
    FlushRecorderKeepsTrusted(w, r.flushedAt);
    FlushRecorderOnlyAdds(w, r.flushedAt);
    var w1 := FlushRecorder(w, r.flushedAt);
    FlushOfNothing(w1.t);
    assert EventIds(w.t.events) <= EventIds(w1.t.events);
    EveryStoredEventRebuilds(w.t, States(w.live), r.eventId);
    EveryStoredEventRebuilds(w1.t, States(w1.live), r.eventId);
    RestoreKeepsTrusted(w, r);
  }

  /**
   * Restore is reversible, at once or after any run of further steps: for as long as the restore.started event
   * of an accepted restore is stored, restoring to it with the live clock is accepted and brings back exactly
   * the document map from before that restore. Right after the restore it is stored.
   */
  lemma RestoreIsReversible(w: World, r: Restore, between: seq<Step>, back: Restore)
    requires Trusted(w) && Enabled(w, Rewind(r)) && RestoreAccepted(w, r) && IsRun(RestoreVersion(w, r), between)
    requires back.eventId == StartedEventId(w, r)
    requires var later := Run(RestoreVersion(w, r), between);
             && back.eventId in EventIds(later.t.events) && back.expectedClock == later.live.documentClock
             && Enabled(later, Rewind(back))
    ensures RestoreAccepted(Run(RestoreVersion(w, r), between), back)
    ensures States(RestoreVersion(Run(RestoreVersion(w, r), between), back).live) == States(w.live)
    ensures StartedEventId(w, r) in EventIds(RestoreVersion(w, r).t.events)
  {
    var w2 := RestoreVersion(w, r);
    RestoreLeavesAWayBack(w, r);
    RunKeepsTrusted(w2, between);
    StoredEventIsRestorable(Run(w2, between), back);
  }

  /** On every reachable board a compaction pass goes through: verification cannot fail, and the plan is in order. */
  lemma CompactionNeverFailsOnABoard(w: World, cal: Calendar, s: Settings, apply: bool)
    requires Trusted(w)
    ensures !PassOutcome(cal, w.t, s, apply).Failed?
    ensures var plan := PlanOf(cal, w.t, s);
            StrictlyIncreasing(plan.deletableEventIds) && |w.t.events| - |Delete(w.t, plan).events| == |plan.deletableEventIds|
  {
    var plan := PlanOf(cal, w.t, s);
    forall x | x in VerificationTargets(w.t.events, plan)
      ensures Reconstruct(w.t, x).Ok?
    {
      TargetRebuilds(w, cal, s, x);
    }
    OrderedPassNeverFails(cal, w.t, s, apply);
    PlanIsOrdered(cal, w.t, s);
    PlannedDeletionCount(cal, w.t, s);
  }

  lemma TargetRebuilds(w: World, cal: Calendar, s: Settings, x: Target)
    requires Trusted(w) && x in VerificationTargets(w.t.events, PlanOf(cal, w.t, s))
    ensures Reconstruct(w.t, x).Ok?
  {
    var plan := PlanOf(cal, w.t, s);
    if x in CheckpointTargets(plan.retainedCheckpointIds) {
      var rows := PlannedRows(cal, w.t, s);
      RetainedMembers(cal, w.t.checkpoints, w.t.checkpoints, CheckpointCutoff(s));
      var k :| 0 <= k < |rows| && x == AtCheckpoint(rows[k].id);
      assert rows[k] in rows;
      EveryCheckpointRebuilds(w.t, States(w.live), rows[k]);
    } else {
      if x in HistoricalTargets(w.t.events, plan) {
        HistoricalMembers(w.t.events, plan, x);
      } else {
        RecentMembers(w.t.events, plan.boundaryEventId, RECENT_TARGETS, x);
      }
      EveryStoredEventRebuilds(w.t, States(w.live), x.eventId);
    }
  }
}
