/**
 * The objects a running server keeps per board: tldraw's storage, the history recorder around the store,
 * the storage wrapper that records every transaction, and the room operations. Each public operation is
 * proved to be one step of BoardRuns, so every result about runs is a result about these objects.
 */
module Rooms {
  import opened Wrappers
  import opened Records
  import opened Snapshots
  import opened Tables
  import opened BoardRuns
  import opened HistoryStore

  /** tldraw's own storage, of which only the current snapshot matters here. */
  class LiveStorage {
    var snapshot: Snapshot

    constructor (initial: Snapshot)
      ensures snapshot == initial
    {
      snapshot := initial;
    }
  }

  class BoardHistoryRecorder {
    const store: BoardHistoryStore
    const storage: LiveStorage
    const policy: Policy
    var timerArmed: bool
    var eventsAtLastSnapshot: nat
    var lastSnapshotAt: int

    ghost function State(): World
      reads this, store, storage
    {
      World(store.State(), storage.snapshot, policy, eventsAtLastSnapshot, lastSnapshotAt)
    }

    /** A prior process may have committed fragments and died before its timer fired: publish them first. */
    constructor (store: BoardHistoryStore, storage: LiveStorage, policy: Policy, now: int)
      requires store.Valid()
      modifies store
      ensures this.store == store && this.storage == storage && this.policy == policy
      ensures store.Valid() && !timerArmed
      ensures store.State() == ForceFlush(old(store.State()))
      ensures eventsAtLastSnapshot == OrZero(LatestEventId(store.State()))
      ensures lastSnapshotAt == NewestCheckpointTime(store.State(), now)
      ensures storage.snapshot == old(storage.snapshot)
    {
      this.store, this.storage, this.policy, timerArmed := store, storage, policy, false;
      eventsAtLastSnapshot, lastSnapshotAt := 0, now;
      new;
      PickUp(now);
    }

    method PickUp(now: int)
      requires store.Valid()
      modifies this`eventsAtLastSnapshot, this`lastSnapshotAt, store
      ensures store.Valid() && store.State() == ForceFlush(old(store.State()))
      ensures eventsAtLastSnapshot == OrZero(LatestEventId(store.State())) && lastSnapshotAt == NewestCheckpointTime(store.State(), now)
    {
      var published := store.FlushFragments(0, true);
      var newest := store.NewestEventId();
      var newestAt := store.NewestCheckpointAt(now);
      eventsAtLastSnapshot, lastSnapshotAt := OrZero(newest), newestAt;
    }

    method RecordHumanFragmentRow(input: EventInput, key: string)
      requires store.Valid() && ValidChanges(input.changes)
      modifies this, store
      ensures store.Valid() && State() == RecordHumanFragment(old(State()), input, key) && timerArmed
    {
      var ok := store.AppendFragment(input, key, input.createdAt + policy.coalesceMs, States(storage.snapshot));
      timerArmed := true;
    }

    /** Flushes without checkpointing: the live snapshot may already hold this event's own mutation. */
    method RecordEvent(input: EventInput, now: int)
      requires store.Valid() && ValidChanges(input.changes)
      modifies this, store
      ensures store.Valid() && State() == RecordSynchronousEvent(old(State()), input, now) && !timerArmed
    {
      timerArmed := false;
      var published := store.FlushFragments(0, true);
      FlushTwice(old(store.State()));
      var event := store.AppendEvent(input, States(storage.snapshot));
      CheckpointIfDue(now);
    }

    method Flush(now: int)
      requires store.Valid()
      modifies this, store
      ensures store.Valid() && State() == FlushRecorder(old(State()), now) && !timerArmed
    {
      timerArmed := false;
      var published := store.FlushFragments(0, true);
      if |published| > 0 {
        CheckpointIfDue(now);
      }
    }

    method CheckpointIfDue(now: int)
      requires store.Valid()
      modifies this, store
      ensures store.Valid() && State() == MaybeCheckpoint(old(State()), now) && timerArmed == old(timerArmed)
    {
      var newest := store.NewestEventId();
      var latest := OrZero(newest);
      if latest - eventsAtLastSnapshot < policy.snapshotEveryEvents && now - lastSnapshotAt < policy.snapshotEveryMs {
        return;
      }
      var c := store.CreateCheckpoint(now, if latest == 0 then None else Some(latest), Periodic, storage.snapshot);
      eventsAtLastSnapshot, lastSnapshotAt := latest, now;
    }
  }

  lemma FlushTwice(t: Tables)
    ensures ForceFlush(ForceFlush(t)) == ForceFlush(t)
  {
    FlushLeavesNothing(t);
  }

  lemma {:induction false} FlushLeavesNothing(t: Tables)
    ensures ForceFlush(t).fragments == []
    decreases |t.fragments|
  {
    if t.fragments != [] {
      FlushLeavesNothing(PublishGroup(t, GroupLength(t.fragments)));
    }
  }

  /** What a write is attributed to, until the next storage transaction consumes it. */
  datatype WriteContext = WriteContext(actorUserId: Option<string>, actorDisplayName: string, sessionId: Option<string>,
                                       source: Source, metadata: Metadata, immediate: bool, suppress: bool)

  /** Attributed as the context says, of the time and type given, naming its record if it changes exactly one. */
  ghost predicate Attributed(input: EventInput, context: WriteContext, eventType: string, now: int) {
    && input.header.actorUserId == context.actorUserId && input.header.sessionId == context.sessionId && input.header.source == context.source
    && input.header.eventType == eventType && input.header.entityType == Some("records") && input.createdAt == now
    && input.header.entityId == (if |input.changes| == 1 then Some(input.changes[0].recordId) else None)
    && Described(input.metadata, context)
  }

  /** What the context adds, and the name of the actor unless the context gives another. */
  ghost predicate Described(metadata: Metadata, context: WriteContext) {
    && (forall k :: k in metadata <==> k in context.metadata || k == "actorDisplayName")
    && (forall k :: k in context.metadata ==> metadata[k] == context.metadata[k])
    && ("actorDisplayName" !in context.metadata ==> metadata["actorDisplayName"] == context.actorDisplayName)
  }

  /** A person's edit, by this user in this session, with nothing said about it but the user's name. */
  ghost predicate FromSession(input: EventInput, userId: string, displayName: string, sessionId: string, eventType: string, now: int) {
    && input.header.actorUserId == Some("user:" + userId) && input.header.sessionId == Some(sessionId) && input.header.source == Human
    && input.header.eventType == eventType && input.createdAt == now && input.metadata == map["actorDisplayName" := displayName]
  }

  /** The step records an event of this context, under this key if it is staged. */
  ghost predicate RecordsUnder(step: Step, context: Option<WriteContext>, eventType: string, key: string, now: int) {
    match step
    case Push(_, input, k) => context.Some? && Attributed(input, context.value, eventType, now) && k == key
    case Immediate(_, input, at) => context.Some? && Attributed(input, context.value, eventType, now) && at == now
    case _ => true
  }

  class HistorySyncStorage {
    const delegate: LiveStorage
    const recorder: BoardHistoryRecorder
    var nextContext: Option<WriteContext>

    constructor (delegate: LiveStorage, recorder: BoardHistoryRecorder)
      requires recorder.storage == delegate
      ensures this.delegate == delegate && this.recorder == recorder && nextContext == None
    {
      this.delegate, this.recorder, nextContext := delegate, recorder, None;
    }

    method SetNextContext(context: WriteContext)
      modifies this
      ensures nextContext == Some(context)
    {
      nextContext := Some(context);
    }

    /** Whether a transaction under this context that leaves `after` is recorded. */
    predicate RecordedUnder(context: Option<WriteContext>, after: Snapshot)
      reads this, delegate
    {
      context.Some? && !context.value.suppress && after.documentClock > delegate.snapshot.documentClock
    }

    predicate Recorded(after: Snapshot)
      reads this, delegate
    {
      RecordedUnder(nextContext, after)
    }

    /**
     * The callback's effect on the snapshot and its history row commit together. `after` is what tldraw's
     * callback leaves, or None if it throws; `eventType`, `key` and `now` are computed from it and the clock.
     */
    method Transaction(after: Option<Snapshot>, eventType: string, key: string, now: int) returns (ghost step: Option<Step>)
      requires recorder.storage == delegate && recorder.store.Valid()
      requires after.Some? && !Recorded(after.value) ==> States(after.value) == States(delegate.snapshot)
      modifies this, delegate, recorder, recorder.store
      ensures recorder.store.Valid() && nextContext == None
      ensures after.None? ==> step == None && recorder.State() == old(recorder.State())
      ensures after.Some? ==>
                && step.Some? && delegate.snapshot == after.value
                && Enabled(old(recorder.State()), step.value)
                && recorder.State() == Next(old(recorder.State()), step.value)
                && (old(Recorded(after.value)) <==> step.value.Push? || step.value.Immediate?)
                && (step.value.Push? <==> old(Recorded(after.value)) && old(nextContext.value).source == Human && !old(nextContext.value).immediate)
                && RecordsUnder(step.value, old(nextContext), eventType, key, now)
    {
      var context := nextContext;
      nextContext := None;
      if after.None? {
        return None;
      }
      var before := delegate.snapshot;
      delegate.snapshot := after.value;
      if context.None? || context.value.suppress || after.value.documentClock <= before.documentClock {
        return Some(Untracked(after.value));
      }
      var changes := ChangesBetween(States(before), States(after.value));
      var entityId := if |changes| == 1 then Some(changes[0].recordId) else None;
      var header := Header(context.value.actorUserId, context.value.sessionId, eventType, Some("records"), entityId, context.value.source);
      var metadata := map["actorDisplayName" := context.value.actorDisplayName] + context.value.metadata;
      var input := EventInput(header, now, metadata, changes, Some(after.value.documentClock));
      if context.value.source == Human && !context.value.immediate {
        recorder.RecordHumanFragmentRow(input, key);
        return Some(Push(after.value, input, key));
      } else {
        recorder.RecordEvent(input, now);
        return Some(Immediate(after.value, input, now));
      }
    }

    /** One write under a context of its own: whatever context was waiting before it is waiting again afterwards. */
    method WithContext(context: WriteContext, after: Option<Snapshot>, eventType: string, key: string, now: int) returns (ghost step: Option<Step>)
      requires recorder.storage == delegate && recorder.store.Valid()
      requires after.Some? && !RecordedUnder(Some(context), after.value) ==> States(after.value) == States(delegate.snapshot)
      modifies this, delegate, recorder, recorder.store
      ensures recorder.store.Valid() && nextContext == old(nextContext)
      ensures after.None? ==> step == None && recorder.State() == old(recorder.State())
      ensures after.Some? ==>
                && step.Some? && delegate.snapshot == after.value
                && Enabled(old(recorder.State()), step.value)
                && recorder.State() == Next(old(recorder.State()), step.value)
                && (old(RecordedUnder(Some(context), after.value)) <==> step.value.Push? || step.value.Immediate?)
                && RecordsUnder(step.value, Some(context), eventType, key, now)
    {
      var previous := nextContext;
      nextContext := Some(context);
      step := Transaction(after, eventType, key, now);
      nextContext := previous;
    }

    /** A pushed edit from a browser: attributed to its session, staged when it changed the board, never an immediate event. */
    method ReceivePush(userId: string, displayName: string, sessionId: string, after: Option<Snapshot>, eventType: string, key: string, now: int)
      returns (ghost step: Option<Step>)
      requires recorder.storage == delegate && recorder.store.Valid()
      requires after.Some? && after.value.documentClock <= delegate.snapshot.documentClock ==> States(after.value) == States(delegate.snapshot)
      modifies this, delegate, recorder, recorder.store
      ensures recorder.store.Valid() && nextContext == None
      ensures after.None? ==> step == None && recorder.State() == old(recorder.State())
      ensures after.Some? ==>
                && step.Some? && Enabled(old(recorder.State()), step.value)
                && recorder.State() == Next(old(recorder.State()), step.value)
                && (step.value.Push? <==> after.value.documentClock > old(delegate.snapshot.documentClock)) && !step.value.Immediate?
                && (step.value.Push? ==> step.value.key == key && FromSession(step.value.input, userId, displayName, sessionId, eventType, now))
    {
      SetNextContext(WriteContext(Some("user:" + userId), displayName, Some(sessionId), Human, map[], false, false));
      step := Transaction(after, eventType, key, now);
    }
  }

  /* -------------------------------------------------------------------- room operations */

  /** Opening a board: a fresh recorder, then the origin checkpoint if the board has none. */
  method OpenRoom(store: BoardHistoryStore, live: LiveStorage, policy: Policy, now: int, importedAt: int, ghost before: World)
    returns (recorder: BoardHistoryRecorder, storage: HistorySyncStorage)
    requires store.Valid()
    requires before.t == store.State() && before.live == live.snapshot && before.policy == policy
    modifies store
    ensures fresh(recorder) && fresh(storage) && storage.recorder == recorder && storage.delegate == live
    ensures recorder.store == store && recorder.storage == live && recorder.policy == policy
    ensures store.Valid() && recorder.State() == Next(before, Reopen(now, importedAt))
  {
    recorder := new BoardHistoryRecorder(store, live, policy, now);
    storage := new HistorySyncStorage(live, recorder);
    store.EnsureLegacyImportCheckpoint(live.snapshot, importedAt);
  }

  method TakeRoomCheckpoint(recorder: BoardHistoryRecorder, note: EventInput, flushedAt: int, createdAt: int)
    requires recorder.store.Valid() && note.changes == []
    modifies recorder, recorder.store
    ensures recorder.store.Valid()
    ensures recorder.State() == Next(old(recorder.State()), Snap(note, flushedAt, createdAt))
  {
    recorder.Flush(flushedAt);
    var event := recorder.store.AppendEvent(note, States(recorder.storage.snapshot));
    var c := recorder.store.CreateCheckpoint(createdAt, Some(event.value.id), Explicit, recorder.storage.snapshot);
  }

  datatype RestoreResult = Restored(completedEventId: nat) | StaleClock | Refused(error: HistoryError)

  /**
   * An account-audit page is projected as one immediate event per row, stamped when the account acted; none changes a
   * document. Every event comes with its own reading of the clock.
   */
  method ProjectAudit(recorder: BoardHistoryRecorder, page: seq<EventInput>, readings: seq<int>)
    requires recorder.store.Valid() && |readings| == |page| && forall input :: input in page ==> input.changes == []
    modifies recorder, recorder.store
    ensures recorder.store.Valid()
    ensures IsRun(old(recorder.State()), Notes(page, readings)) && recorder.State() == Run(old(recorder.State()), Notes(page, readings))
  {
    ghost var steps := Notes(page, readings);
    for i := 0 to |page|
      invariant recorder.store.Valid()
      invariant IsRun(old(recorder.State()), steps[..i]) && recorder.State() == Run(old(recorder.State()), steps[..i])
    {
      RunThenStep(old(recorder.State()), steps[..i], steps[i]);
      assert steps[..i + 1] == steps[..i] + [steps[i]] && page[i] in page;
      recorder.RecordEvent(page[i], readings[i]);
    }
    assert steps[..|page|] == steps;
  }

  lemma {:induction false} RunThenStep(w: World, steps: seq<Step>, s: Step)
    requires IsRun(w, steps)
    ensures Run(w, steps + [s]) == Next(Run(w, steps), s)
    ensures Enabled(Run(w, steps), s) ==> IsRun(w, steps + [s])
    decreases |steps|
  {
    var all := steps + [s];
    if steps == [] {
      assert all[1..] == [];
    } else {
      assert all[0] == steps[0] && all[1..] == steps[1..] + [s];
      RunThenStep(Next(w, steps[0]), steps[1..], s);
    }
  }

  /**
   * Restore as one storage transaction: refuse a stale clock, save the current board, load the target's
   * snapshot, record the completed restore with the changes it made. `r.loaded` is what the storage holds after
   * loading; `made` is the restore with those changes filled in.
   */
  method RestoreRoomVersion(recorder: BoardHistoryRecorder, r: Restore) returns (result: RestoreResult, ghost made: Restore)
    requires recorder.store.Valid() && LoadsTarget(recorder.State(), r)
    modifies recorder, recorder.store, recorder.storage
    ensures recorder.store.Valid()
    ensures made == Completing(r, made.completed.changes) && Enabled(old(recorder.State()), Rewind(made))
    ensures recorder.State() == Next(old(recorder.State()), Rewind(made))
    ensures result.Restored? <==> RestoreAccepted(old(recorder.State()), r)
    ensures result.StaleClock? <==> old(recorder.storage.snapshot.documentClock) != r.expectedClock
    ensures result.Restored? ==> recorder.storage.snapshot == r.loaded && result.completedEventId == recorder.store.lastEventId
  {
    var store, storage := recorder.store, recorder.storage;
    made := r;
    recorder.Flush(r.flushedAt);
    if storage.snapshot.documentClock != r.expectedClock {
      return StaleClock, made;
    }
    ghost var flushed := store.State();
    FlushedRecorderIsFlushed(old(recorder.State()), r.flushedAt);
    var target := store.ReconstructTarget(AtEvent(r.eventId));
    if target.Err? {
      return Refused(target.error), made;
    }
    var current := storage.snapshot;
    var none := store.FlushFragments(0, true);
    var started := store.InsertEvent(r.started, States(current));
    var saved := store.InsertCheckpoint(r.startedAt, Some(started.id), PreRestore, current);
    storage.snapshot := r.loaded;
    var still := store.FlushFragments(0, true);
    var changes := ChangesBetween(States(current), States(r.loaded));
    made := Completing(r, changes);
    var completed := store.InsertEvent(r.completed.(changes := changes), States(r.loaded));
    var restored := store.InsertCheckpoint(r.completedAt, Some(completed.id), RestoreCompleted, r.loaded);
    return Restored(completed.id), made;
  }

  lemma FlushedRecorderIsFlushed(w: World, now: int)
    ensures ForceFlush(FlushRecorder(w, now).t) == FlushRecorder(w, now).t
  {
    FlushLeavesNothing(w.t);
    var t := ForceFlush(w.t);
    FlushTwice(w.t);
  }
}
