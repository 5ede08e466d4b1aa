/**
 * Which checkpoints the steps of a board's life write, row by row: the reason, the time, the event each is based on and
 * the snapshot it holds; and exactly when one that nobody asked for is written.
 */
module Checkpointing {
  import opened Wrappers
  import opened Records
  import opened Snapshots
  import opened Tables
  import opened HistoryInvariant
  import opened BoardRuns
  import opened Coalescing

  /** The id of the newest event, if there is any. */
  ghost predicate Newest(es: seq<Event>, y: Option<nat>) {
    match y
    case None => es == []
    case Some(id) => (exists e :: e in es && e.id == id) && forall e :: e in es ==> e.id <= id
  }

  /** The id of the newest event, and what that event records. */
  ghost predicate NewestIs(es: seq<Event>, y: Option<nat>, input: EventInput) {
    Newest(es, y) && y.Some? && forall e :: e in es && e.id == y.value ==> e.input == input
  }

  /** One row more, with a new id, for this reason, of this time, based on this event and holding this snapshot. */
  ghost predicate Writes(cs: seq<Checkpoint>, cs': seq<Checkpoint>, reason: Reason, at: int, base: Option<nat>, snapshot: Snapshot) {
    && |cs'| == |cs| + 1 && cs'[..|cs|] == cs && (forall c :: c in cs ==> c.id < cs'[|cs|].id)
    && cs'[|cs|].reason == reason && cs'[|cs|].createdAt == at && cs'[|cs|].base == base && cs'[|cs|].snapshot == snapshot
  }

  /** As many new events, or as much time, as the policy lets pass without a checkpoint. */
  ghost predicate Overdue(w: World, newest: Option<nat>, now: int) {
    || (match newest case None => 0 case Some(id) => id) >= w.eventsAtLastSnapshot + w.policy.snapshotEveryEvents
    || now >= w.lastSnapshotAt + w.policy.snapshotEveryMs
  }

  /** A periodic checkpoint of the live board at the newest event, and both marks moved to it; or nothing. */
  ghost predicate Considers(w: World, w': World, newest: Option<nat>, now: int) {
    && Newest(w'.t.events, newest) && w'.live == w.live && w'.policy == w.policy
    && if Overdue(w, newest, now) then
         && Writes(w.t.checkpoints, w'.t.checkpoints, Periodic, now, newest, w.live)
         && newest == Some(w'.eventsAtLastSnapshot) && w'.lastSnapshotAt == now
       else
         w'.t.checkpoints == w.t.checkpoints && w'.eventsAtLastSnapshot == w.eventsAtLastSnapshot && w'.lastSnapshotAt == w.lastSnapshotAt
  }

  lemma LatestIsNewest(t: Tables)
    requires AscendingEvents(t.events)
    ensures Newest(t.events, LatestEventId(t))
  {
    if t.events != [] {
      assert t.events[|t.events| - 1] in t.events;
    }
  }

  lemma NextRow(t: Tables, at: int, base: Option<nat>, reason: Reason, snapshot: Snapshot)
    requires forall c :: c in t.checkpoints ==> c.id <= t.lastCheckpointId
    ensures Writes(t.checkpoints, InsertCheckpoint(t, at, base, reason, snapshot).checkpoints, reason, at, base, snapshot)
  {
  }

  lemma RowsAreNumbered(t: Tables, docs: Docs)
    requires Sound(t, docs)
    ensures forall c :: c in t.checkpoints ==> c.id <= t.lastCheckpointId
    ensures AscendingEvents(t.events) && forall e :: e in t.events ==> 0 < e.id <= t.lastEventId
  {
  }

  lemma ConsideredWhenOverdue(w: World, now: int)
    requires Trusted(w) && w.t.fragments == [] && w.t.events != []
    ensures Considers(w, MaybeCheckpoint(w, now), LatestEventId(w.t), now)
    ensures MaybeCheckpoint(w, now).t.events == w.t.events
  {
    var newest := LatestEventId(w.t);
    LatestIsNewest(w.t);
    RowsAreNumbered(w.t, States(w.live));
    assert w.t.events[|w.t.events| - 1] in w.t.events;
    NextRow(w.t, now, newest, Periodic, w.live);
    FlushOfNothing(w.t);
  }

  /** A flush considers a checkpoint exactly if it has published something. */
  lemma FlushWrites(w: World, now: int) returns (newest: Option<nat>)
    requires Trusted(w)
    ensures var w' := FlushRecorder(w, now);
            && w.t.events <= w'.t.events && w'.t.fragments == []
            && if w'.t.events == w.t.events then
                 && w'.t.checkpoints == w.t.checkpoints && w'.eventsAtLastSnapshot == w.eventsAtLastSnapshot
                 && w'.lastSnapshotAt == w.lastSnapshotAt && Newest(w'.t.events, newest)
               else Considers(w, w', newest, now)
  {
    var w1 := w.(t := ForceFlush(w.t));
    ForceFlushKeepsSound(w.t, States(w.live));
    FlushOnlyAppends(w.t, 0, true);
    RowsAreNumbered(w1.t, States(w.live));
    LatestIsNewest(w1.t);
    newest := LatestEventId(w1.t);
    FlushRecorderKeepsTrusted(w, now);
    if |w1.t.events| > |w.t.events| {
      ConsideredWhenOverdue(w1, now);
    }
  }

  /** An immediate event considers one every time, after the event. */
  lemma RecordWrites(w: World, live: Snapshot, input: EventInput, now: int) returns (newest: Option<nat>)
    requires Trusted(w) && Replay(States(w.live), input.changes) == Some(States(live))
    ensures var w' := RecordSynchronousEvent(w.(live := live), input, now);
            Considers(w.(live := live), w', newest, now) && NewestIs(w'.t.events, newest, input)
  {
    var w1 := w.(live := live, t := AppendEvent(w.t, input, States(live)));
    AppendEventKeepsSound(w.t, input, States(w.live), States(live));
    ForceFlushKeepsSound(w.t, States(w.live));
    newest := LatestEventId(w1.t);
    ConsideredWhenOverdue(w1, now);
    RowsAreNumbered(w1.t, States(live));
    LastIsNewest(w1.t.events);
  }

  lemma LastIsNewest(es: seq<Event>)
    requires AscendingEvents(es) && es != []
    ensures NewestIs(es, Some(es[|es| - 1].id), es[|es| - 1].input)
  {
    assert es[|es| - 1] in es;
  }

  /** A checkpoint asked for is one row more after the flush, of the live board and based on the note that says so. */
  lemma AskedForWrites(w: World, note: EventInput, flushedAt: int, createdAt: int) returns (base: Option<nat>)
    requires Trusted(w) && note.changes == []
    ensures var w1, w' := FlushRecorder(w, flushedAt), CreateRoomCheckpoint(w, note, flushedAt, createdAt);
            && Writes(w1.t.checkpoints, w'.t.checkpoints, Explicit, createdAt, base, w.live) && NewestIs(w'.t.events, base, note)
            && w'.live == w.live
  {
    var w1 := FlushRecorder(w, flushedAt);
    FlushRecorderKeepsTrusted(w, flushedAt);
    var t := AppendEvent(w1.t, note, States(w1.live));
    AppendEventKeepsSound(w1.t, note, States(w1.live), States(w1.live));
    ForceFlushKeepsSound(w1.t, States(w1.live));
    RowsAreNumbered(t, States(w1.live));
    FlushOfNothing(t);
    LastIsNewest(t.events);
    base := Some(t.lastEventId);
    NextRow(t, createdAt, base, Explicit, w1.live);
  }

  lemma PreparingWrites(t: Tables, docs: Docs, r: Restore, live: Snapshot) returns (start: Option<nat>)
    requires Sound(t, docs)
    ensures var t' := PrepareRestore(t, r, live);
            && Writes(t.checkpoints, t'.checkpoints, PreRestore, r.startedAt, start, live)
            && NewestIs(t'.events, start, r.started) && t'.events[..|t'.events| - 1] == t.events
  {
    RowsAreNumbered(t, docs);
    var t1 := InsertEvent(t, r.started, States(live));
    start := Some(t1.lastEventId);
    NextRow(t1, r.startedAt, start, PreRestore, live);
    LastIsNewest(t1.events);
  }

  lemma CompletingWrites(t: Tables, docs: Docs, r: Restore) returns (end: Option<nat>)
    requires Sound(t, docs) && t.fragments == []
    ensures var t' := CompleteRestore(t, r);
            && Writes(t.checkpoints, t'.checkpoints, RestoreCompleted, r.completedAt, end, r.loaded)
            && NewestIs(t'.events, end, r.completed) && t'.events[..|t'.events| - 1] == t.events
  {
    RowsAreNumbered(t, docs);
    FlushOfNothing(t);
    var t1 := InsertEvent(t, r.completed, States(r.loaded));
    end := Some(t1.lastEventId);
    NextRow(t1, r.completedAt, end, RestoreCompleted, r.loaded);
    LastIsNewest(t1.events);
  }

  /**
   * An accepted restore writes two after the flush: the board as it was, based on the note that it started, and the
   * board as loaded, based on the note that it was completed. These are the only events and rows it adds.
   */
  lemma RestoreWrites(w: World, r: Restore) returns (middle: Tables, start: Option<nat>, end: Option<nat>)
    requires Trusted(w) && Enabled(w, Rewind(r)) && RestoreAccepted(w, r)
    ensures var w1, w' := FlushRecorder(w, r.flushedAt), RestoreVersion(w, r);
            && Writes(w1.t.checkpoints, middle.checkpoints, PreRestore, r.startedAt, start, w.live)
            && NewestIs(middle.events, start, r.started) && middle.events[..|middle.events| - 1] == w1.t.events
            && Writes(middle.checkpoints, w'.t.checkpoints, RestoreCompleted, r.completedAt, end, r.loaded)
            && NewestIs(w'.t.events, end, r.completed) && w'.t.events[..|w'.t.events| - 1] == middle.events
            && w'.live == r.loaded
  {
    var w1, prepared := AcceptedRestore(w, r);
    middle := prepared;
    start := PreparingWrites(w1.t, States(w1.live), r, w1.live);
    end := CompletingWrites(prepared, States(w.live), r);
  }

  /** The recorder's marks after a restart: the newest event there is, and the time of the newest checkpoint. */
  ghost predicate Marked(w: World, t: Tables) {
    && Newest(t.events, if t.events == [] then None else Some(w.eventsAtLastSnapshot)) && (t.events == [] ==> w.eventsAtLastSnapshot == 0)
    && exists c :: c in t.checkpoints && c.createdAt == w.lastSnapshotAt && forall d :: d in t.checkpoints ==> d.id <= c.id
  }

  /** A restart publishes what was staged and writes no checkpoint, for there is one. */
  lemma RestartWrites(w: World, now: int, importedAt: int)
    requires Trusted(w)
    ensures Open(w, now, importedAt).t == ForceFlush(w.t) && w.t.checkpoints != []
    ensures Marked(Open(w, now, importedAt), ForceFlush(w.t))
  {
    var t := ForceFlush(w.t);
    ForceFlushKeepsSound(w.t, States(w.live));
    RowsAreNumbered(t, States(w.live));
    LatestIsNewest(t);
    assert t.checkpoints[|t.checkpoints| - 1] in t.checkpoints;
  }

  /** The first start of a board that exists already: one event, which says so, and one checkpoint of the board as found. */
  lemma FirstStartWrites(live: Snapshot, policy: Policy, now: int, importedAt: int)
    ensures var w := FirstOpen(live, policy, now, importedAt);
            && Writes([], w.t.checkpoints, LegacyImport, importedAt, Some(1), live) && w.live == live && w.policy == policy
            && (exists e :: w.t.events == [e] && e.id == 1 && e.input.changes == [] && e.input.createdAt == importedAt
                  && e.input.documentClock == Some(live.documentClock) && e.input.header.source == System && e.input.header.eventType == "board.imported")
            && w.eventsAtLastSnapshot == 0 && w.lastSnapshotAt == now
  {
    var w := FirstOpen(live, policy, now, importedAt);
    assert w.t.events[0].id == 1 && w.t.events == [w.t.events[0]];
  }

  /* -------------------------------------------------------------------- the window */

  lemma {:induction false} InSomeRun(runs: seq<seq<Fragment>>, f: Fragment) returns (i: nat)
    requires f in Joined(runs)
    ensures i < |runs| && f in runs[i]
    decreases |runs|
  {
    i := 0;
    if f !in runs[0] {
      var k := InSomeRun(runs[1..], f);
      i := k + 1;
    }
  }

  /** The last row stays as long as it is not due, and with it its group; rows that are all due are all published. */
  lemma LastWaits(t: Tables, now: int)
    requires t.fragments != []
    ensures var left := Flush(t, now, false).fragments;
            && (now < t.fragments[|t.fragments| - 1].flushAfter ==> left != [] && left[|left| - 1] == t.fragments[|t.fragments| - 1])
            && ((forall f :: f in t.fragments ==> f.flushAfter <= now) ==> left == [])
  {
    var left, last := Flush(t, now, false).fragments, t.fragments[|t.fragments| - 1];
    var runs, events := FlushPublishesRuns(t, now, false);
    if left == [] {
      assert Joined(runs) + left == Joined(runs);
      var i := InSomeRun(runs, last);
      assert AllDue(runs[i], now);
    } else {
      var n: nat :| Coalescing.IsRun(left, n) && !AllDue(left[..n], now);
      var f :| f in left[..n] && f.flushAfter > now;
      assert f in t.fragments;
    }
  }

  /**
   * A pushed edit stays staged as long as its window lasts, whatever else is staged; once every window is over, a flush
   * leaves nothing staged.
   */
  lemma PushWaitsItsWindow(w: World, after: Snapshot, input: EventInput, key: string, now: int)
    ensures var left := Next(Next(w, Push(after, input, key)), DueFlush(now)).t.fragments;
            && (now < input.createdAt + w.policy.coalesceMs ==> left != [] && left[|left| - 1].input == input && left[|left| - 1].coalesceKey == key)
            && (input.createdAt + w.policy.coalesceMs <= now && (forall f :: f in w.t.fragments ==> f.flushAfter <= now) ==> left == [])
  {
    LastWaits(Next(w, Push(after, input, key)).t, now);
  }
}
