/**
 * The invariant that makes history trustworthy, what every table operation does to it, and what it
 * implies: every stored event and checkpoint rebuilds the document map the board had.
 */
module HistoryInvariant {
  import opened Wrappers
  import opened Records
  import opened Merge
  import opened Snapshots
  import opened Tables
  import opened Compaction
  import opened CompactionPass

  /** The observer's log is a gapless chain of replayable events. */
  ghost predicate Ledger(t: Tables) {
    && |t.trail.log| == t.lastEventId
    && |t.trail.asOf| == t.lastEventId + 1
    && (forall i :: 0 <= i < |t.trail.log| ==> t.trail.log[i].id == i + 1)
    && (forall i :: 0 <= i < |t.trail.log| ==>
          Replay(t.trail.asOf[i], t.trail.log[i].input.changes) == Some(t.trail.asOf[i + 1]))
  }

  /** The stored events are rows of the log, unaltered. */
  ghost predicate Stored(t: Tables) {
    && AscendingEvents(t.events)
    && (forall e :: e in t.events ==> 1 <= e.id <= |t.trail.log| && t.trail.log[e.id - 1] == e)
  }

  ghost predicate Faithful(c: Checkpoint, t: Tables) {
    c.base.Some? && 1 <= c.base.value < |t.trail.asOf| && States(c.snapshot) == t.trail.asOf[c.base.value]
  }

  /** There is an origin, and every checkpoint holds the document map as of its base. */
  ghost predicate Anchored(t: Tables) {
    && t.checkpoints != []
    && t.checkpoints[0].base == Some(1)
    && AscendingCheckpoints(t.checkpoints)
    && BasesFollowIds(t.checkpoints)
    && (forall c :: c in t.checkpoints ==> c.id <= t.lastCheckpointId && Faithful(c, t))
  }

  ghost predicate Bridged(t: Tables, x: nat, y: nat) {
    exists c :: c in t.checkpoints && x <= BaseOf(c) <= y
  }

  /** A deleted event never lies between a surviving event, or the present, and the checkpoint it rebuilds from. */
  ghost predicate Covered(t: Tables) {
    forall x, y :: 1 <= x <= y <= |t.trail.log| && x !in EventIds(t.events) && (y in EventIds(t.events) || y == |t.trail.log|)
      ==> Bridged(t, x, y)
  }

  /** The staged fragments lead from `from` to `now`, each through the document map it was pushed at. */
  ghost predicate Leads(from: Docs, fs: seq<Fragment>, pushed: map<nat, Docs>, now: Docs)
    decreases |fs|
  {
    if fs == [] then from == now
    else
      && fs[0].id in pushed
      && Replay(from, fs[0].input.changes) == Some(pushed[fs[0].id])
      && Leads(pushed[fs[0].id], fs[1..], pushed, now)
  }

  ghost predicate Staged(t: Tables, now: Docs) {
    && |t.trail.asOf| > 0
    && AscendingFragments(t.fragments)
    && (forall f :: f in t.fragments ==> f.id <= t.lastFragmentId)
    && Leads(t.trail.asOf[|t.trail.asOf| - 1], t.fragments, t.trail.pushed, now)
  }

  /** The history invariant of a board whose live document map is `now`. */
  ghost predicate Sound(t: Tables, now: Docs) {
    Ledger(t) && Stored(t) && Anchored(t) && Covered(t) && Staged(t, now)
  }

  /** Nothing observed so far is ever rewritten. */
  ghost predicate Extends(t: Tables, t': Tables) {
    && t.trail.log <= t'.trail.log
    && t.trail.asOf <= t'.trail.asOf
    && t.lastEventId <= t'.lastEventId
  }

  /* ------------------------------------------------------------------- meaning */

  lemma {:induction false} ReplayLog(t: Tables, from: nat, last: nat)
    requires Ledger(t) && from <= last <= |t.trail.log|
    ensures Replay(t.trail.asOf[from], AllChanges(t.trail.log[from..last])) == Some(t.trail.asOf[last])
    decreases last - from
  {
    var es := t.trail.log[from..last];
    if from < last {
      ReplayLog(t, from + 1, last);
      assert es[0] == t.trail.log[from] && es[1..] == t.trail.log[from + 1..last];
      ReplayConcat(t.trail.asOf[from], es[0].input.changes, AllChanges(es[1..]));
    }
  }

  /** Above its best checkpoint, everything a surviving target replays is still there. */
  lemma NothingMissingAboveBase(t: Tables, y: nat, c: Checkpoint)
    requires Ledger(t) && Stored(t) && Anchored(t) && Covered(t)
    requires y in EventIds(t.events)
    requires BestCheckpoint(t.checkpoints, Some(y)) == Some(c)
    ensures BaseOf(c) <= y <= |t.trail.log|
    ensures forall x :: BaseOf(c) < x <= y ==> x in EventIds(t.events)
  {
    BestIsBest(t.checkpoints, Some(y));
    forall x | BaseOf(c) < x <= y
      ensures x in EventIds(t.events)
    {
      if x !in EventIds(t.events) {
        assert false;
      }
    }
  }

  lemma LogSliceMember(t: Tables, y: nat, b: nat, e: Event)
    requires Ledger(t) && b <= y <= |t.trail.log|
    ensures e in t.trail.log[b..y] <==> b < e.id <= y && t.trail.log[e.id - 1] == e
  {
    var slice := t.trail.log[b..y];
    if b < e.id <= y && t.trail.log[e.id - 1] == e {
      assert slice[e.id - 1 - b] == e;
    }
  }

  lemma StoredIsLogged(t: Tables, b: nat, y: nat, e: Event)
    requires Stored(t) && b <= y <= |t.trail.log|
    requires b < e.id <= y ==> e.id in EventIds(t.events)
    ensures b < e.id <= y ==> (e in t.events <==> t.trail.log[e.id - 1] == e)
  {
  }

  /** So what it replays is exactly the stretch of the observer's log above its base. */
  lemma ReplaysTheLog(t: Tables, y: nat, b: nat)
    requires Ledger(t) && Stored(t) && b <= y <= |t.trail.log|
    requires forall x :: b < x <= y ==> x in EventIds(t.events)
    ensures EventsBetween(t.events, b, y) == t.trail.log[b..y]
  {
    BetweenMembers(t.events, b, y);
    forall e
      ensures e in EventsBetween(t.events, b, y) <==> e in t.trail.log[b..y]
    {
      LogSliceMember(t, y, b, e);
      StoredIsLogged(t, b, y, e);
    }
    AscendingSameMembers(EventsBetween(t.events, b, y), t.trail.log[b..y]);
  }

  /**
   * Reconstruction is history: for every event still stored, rebuilding never diverges and yields exactly
   * the document map the board had as of that event.
   */
  lemma EveryStoredEventRebuilds(t: Tables, now: Docs, y: nat)
    requires Sound(t, now) && y in EventIds(t.events)
    ensures Reconstruct(t, AtEvent(y)).Ok?
    ensures States(Reconstruct(t, AtEvent(y)).value.snapshot) == t.trail.asOf[y]
  {
    var origin := t.checkpoints[0];
    assert origin in t.checkpoints && Eligible(origin, Some(y));
    BestIsBest(t.checkpoints, Some(y));
    var c := BestCheckpoint(t.checkpoints, Some(y)).value;
    NothingMissingAboveBase(t, y, c);
    ReplaysTheLog(t, y, BaseOf(c));
    ReplayLog(t, BaseOf(c), y);
    HistoryReplayStates(c.snapshot, t.trail.log[BaseOf(c)..y]);
  }

  lemma EveryCheckpointRebuilds(t: Tables, now: Docs, c: Checkpoint)
    requires Sound(t, now) && c in t.checkpoints
    ensures Reconstruct(t, AtCheckpoint(c.id)).Ok?
    ensures States(Reconstruct(t, AtCheckpoint(c.id)).value.snapshot) == t.trail.asOf[BaseOf(c)]
  {
    FindById(t.checkpoints, c);
    var b := BaseOf(c);
    BetweenMembers(t.events, b, b);
    var between := EventsBetween(t.events, b, b);
    if between != [] {
      HasMember(between);
    }
    HistoryReplayStates(c.snapshot, []);
  }

  /* --------------------------------------------------------------- table steps */

  lemma InsertEventKeepsSound(t: Tables, input: EventInput, now: Docs, next: Docs)
    requires Sound(t, now) && t.fragments == []
    requires Replay(now, input.changes) == Some(next)
    ensures Sound(InsertEvent(t, input, next), next) && Extends(t, InsertEvent(t, input, next))
  {
    InsertKeepsRows(t, input, next, t.trail.asOf[|t.trail.asOf| - 1]);
  }

  /** The part of the invariant that does not speak of the staged fragments. */
  lemma InsertKeepsRows(t: Tables, input: EventInput, next: Docs, last: Docs)
    requires Ledger(t) && Stored(t) && Anchored(t) && Covered(t)
    requires last == t.trail.asOf[|t.trail.asOf| - 1] && Replay(last, input.changes) == Some(next)
    ensures var t' := InsertEvent(t, input, next);
            Ledger(t') && Stored(t') && Anchored(t') && Covered(t') && Extends(t, t')
  {
    InsertKeepsStored(t, input, next);
    InsertKeepsAnchored(t, input, next);
    InsertKeepsCovered(t, input, next);
  }

  lemma InsertKeepsStored(t: Tables, input: EventInput, next: Docs)
    requires Ledger(t) && Stored(t)
    ensures Stored(InsertEvent(t, input, next))
    ensures EventIds(InsertEvent(t, input, next).events) == EventIds(t.events) + {t.lastEventId + 1}
  {
    var t' := InsertEvent(t, input, next);
    var e := Event(t.lastEventId + 1, input);
    assert forall x :: x in t'.events <==> x in t.events || x == e;
    forall i, j | 0 <= i < j < |t'.events|
      ensures t'.events[i].id < t'.events[j].id
    {
      assert t.events[i] in t.events;
    }
  }

  lemma InsertKeepsAnchored(t: Tables, input: EventInput, next: Docs)
    requires Ledger(t) && Anchored(t)
    ensures Anchored(InsertEvent(t, input, next))
  {
    var t' := InsertEvent(t, input, next);
    forall c | c in t'.checkpoints
      ensures Faithful(c, t')
    {
      assert Faithful(c, t);
    }
  }

  lemma InsertKeepsCovered(t: Tables, input: EventInput, next: Docs)
    requires Ledger(t) && Stored(t) && Covered(t)
    ensures Covered(InsertEvent(t, input, next))
  {
    var t' := InsertEvent(t, input, next);
    InsertKeepsStored(t, input, next);
    forall x, y | 1 <= x <= y <= |t'.trail.log| && x !in EventIds(t'.events) && (y in EventIds(t'.events) || y == |t'.trail.log|)
      ensures Bridged(t', x, y)
    {
      assert Bridged(t, x, if y == t'.lastEventId then |t.trail.log| else y);
    }
  }

  lemma InsertCheckpointKeepsSound(t: Tables, now: Docs, createdAt: int, reason: Reason, snapshot: Snapshot)
    requires Sound(t, now) && t.fragments == [] && States(snapshot) == now
    ensures Sound(InsertCheckpoint(t, createdAt, Some(t.lastEventId), reason, snapshot), now)
    ensures Extends(t, InsertCheckpoint(t, createdAt, Some(t.lastEventId), reason, snapshot))
  {
    var t' := InsertCheckpoint(t, createdAt, Some(t.lastEventId), reason, snapshot);
    var c := Checkpoint(t.lastCheckpointId + 1, createdAt, Some(t.lastEventId), reason, snapshot);
    assert t.checkpoints[0] in t.checkpoints;
    assert forall x :: x in t'.checkpoints <==> x in t.checkpoints || x == c;
    forall i, j | 0 <= i < j < |t'.checkpoints|
      ensures t'.checkpoints[i].id < t'.checkpoints[j].id
    {
      assert t.checkpoints[i] in t.checkpoints;
    }
    forall x | x in t'.checkpoints
      ensures Faithful(x, t')
    {
      assert x != c ==> Faithful(x, t);
    }
    forall x, y | 1 <= x <= y <= |t'.trail.log| && x !in EventIds(t'.events) && (y in EventIds(t'.events) || y == |t'.trail.log|)
      ensures Bridged(t', x, y)
    {
      assert Bridged(t, x, y);
    }
  }

  lemma {:induction false} LeadsAppend(from: Docs, fs: seq<Fragment>, pushed: map<nat, Docs>, mid: Docs, f: Fragment, now: Docs)
    requires Leads(from, fs, pushed, mid) && Replay(mid, f.input.changes) == Some(now)
    requires forall x :: x in fs ==> x.id != f.id
    ensures Leads(from, fs + [f], pushed[f.id := now], now)
    decreases |fs|
  {
    if fs == [] {
      assert (fs + [f])[1..] == [];
    } else {
      assert (fs + [f])[0] == fs[0] && (fs + [f])[1..] == fs[1..] + [f];
      assert fs[0] in fs;
      LeadsAppend(pushed[fs[0].id], fs[1..], pushed, mid, f, now);
    }
  }

  lemma AppendFragmentKeepsSound(t: Tables, input: EventInput, key: string, flushAfter: int, now: Docs, next: Docs)
    requires Sound(t, now) && Replay(now, input.changes) == Some(next)
    ensures Sound(AppendFragment(t, input, key, flushAfter, next), next)
    ensures Extends(t, AppendFragment(t, input, key, flushAfter, next))
  {
    var t' := AppendFragment(t, input, key, flushAfter, next);
    var f := Fragment(t.lastFragmentId + 1, input, key, flushAfter);
    LeadsAppend(t.trail.asOf[|t.trail.asOf| - 1], t.fragments, t.trail.pushed, now, f, next);
    forall i, j | 0 <= i < j < |t'.fragments|
      ensures t'.fragments[i].id < t'.fragments[j].id
    {
      assert t.fragments[i] in t.fragments;
    }
    forall c | c in t'.checkpoints
      ensures Faithful(c, t')
    {
      assert Faithful(c, t);
    }
    forall x, y | 1 <= x <= y <= |t'.trail.log| && x !in EventIds(t'.events) && (y in EventIds(t'.events) || y == |t'.trail.log|)
      ensures Bridged(t', x, y)
    {
      assert Bridged(t, x, y);
    }
  }

  lemma {:induction false} LeadsThroughGroup(from: Docs, fs: seq<Fragment>, n: nat, pushed: map<nat, Docs>, now: Docs)
    requires 1 <= n <= |fs| && Leads(from, fs, pushed, now)
    ensures fs[n - 1].id in pushed
    ensures Replay(from, Flatten(GroupChanges(fs[..n]))) == Some(pushed[fs[n - 1].id])
    ensures Leads(pushed[fs[n - 1].id], fs[n..], pushed, now)
    decreases n
  {
    var groups := GroupChanges(fs[..n]);
    var mid := pushed[fs[0].id];
    assert groups[0] == fs[0].input.changes;
    assert groups[1..] == GroupChanges(fs[1..][..n - 1]);
    ReplayConcat(from, groups[0], Flatten(groups[1..]));
    if n == 1 {
      assert groups[1..] == [];
    } else {
      LeadsThroughGroup(mid, fs[1..], n - 1, pushed, now);
      assert fs[1..][n - 1..] == fs[n..];
    }
  }

  /**
   * Publishing a group writes exactly the net difference it made, as of its last fragment; a group that
   * is dropped made none. Either way the rest of the staging rows still lead to the live board.
   */
  lemma PublishKeepsSound(t: Tables, now: Docs, n: nat)
    requires Sound(t, now) && 1 <= n <= |t.fragments|
    ensures Sound(PublishGroup(t, n), now) && Extends(t, PublishGroup(t, n))
  {
    var group := t.fragments[..n];
    var input := GroupEvent(group);
    var last := t.trail.asOf[|t.trail.asOf| - 1];
    var next := DocsAfter(t, group[n - 1]);
    var t' := PublishGroup(t, n);
    LeadsThroughGroup(last, t.fragments, n, t.trail.pushed, now);
    MergePreservesMeaning(last, GroupChanges(group));
    var inserted := InsertEvent(t, input, next);
    if input.changes != [] || input.metadata != map[] {
      InsertKeepsRows(t, input, next, last);
      RowsOnly(inserted, t', now, next);
    } else {
      DiffIsMinimal(last, next, input.changes);
      RowsOnly(t, t', now, next);
    }
  }

  /** Staging rows aside, two tables with the same rows and trail satisfy the same invariant. */
  lemma RowsOnly(t: Tables, t': Tables, now: Docs, last: Docs)
    requires Ledger(t) && Stored(t) && Anchored(t) && Covered(t)
    requires t' == t.(fragments := t'.fragments)
    requires last == t.trail.asOf[|t.trail.asOf| - 1] && Leads(last, t'.fragments, t.trail.pushed, now)
    requires AscendingFragments(t'.fragments) && forall f :: f in t'.fragments ==> f.id <= t.lastFragmentId
    ensures Sound(t', now)
  {
    forall c | c in t'.checkpoints
      ensures Faithful(c, t')
    {
      assert Faithful(c, t);
    }
    forall x, y | 1 <= x <= y <= |t'.trail.log| && x !in EventIds(t'.events) && (y in EventIds(t'.events) || y == |t'.trail.log|)
      ensures Bridged(t', x, y)
    {
      assert Bridged(t, x, y);
    }
  }

  ghost predicate IsSuffix(left: seq<Fragment>, all: seq<Fragment>) {
    exists n :: 0 <= n <= |all| && left == all[n..]
  }

  lemma SuffixOfDrop(left: seq<Fragment>, all: seq<Fragment>, n: nat)
    requires n <= |all| && IsSuffix(left, all[n..])
    ensures IsSuffix(left, all)
  {
    var m :| 0 <= m <= |all[n..]| && left == all[n..][m..];
    assert all[n..][m..] == all[n + m..];
  }

  /** A flush consumes a prefix of the staging rows and leaves the rest untouched and in order; a forced one takes all. */
  lemma {:induction false} FlushConsumesPrefix(t: Tables, at: int, force: bool)
    ensures var t' := Flush(t, at, force);
            IsSuffix(t'.fragments, t.fragments) && (force ==> t'.fragments == []) && t'.checkpoints == t.checkpoints
    decreases |t.fragments|
  {
    if t.fragments == [] || (!force && NotDue(t.fragments[..GroupLength(t.fragments)], at)) {
      assert t.fragments == t.fragments[0..];
    } else {
      var n := GroupLength(t.fragments);
      FlushConsumesPrefix(PublishGroup(t, n), at, force);
      SuffixOfDrop(Flush(t, at, force).fragments, t.fragments, n);
    }
  }

  /** Flushing, forced or cut off at any time, keeps the invariant of the same live board. */
  lemma {:induction false} FlushKeepsSound(t: Tables, now: Docs, at: int, force: bool)
    requires Sound(t, now)
    ensures Sound(Flush(t, at, force), now) && Extends(t, Flush(t, at, force))
    decreases |t.fragments|
  {
    if t.fragments != [] {
      var n := GroupLength(t.fragments);
      if force || !NotDue(t.fragments[..n], at) {
        PublishKeepsSound(t, now, n);
        FlushKeepsSound(PublishGroup(t, n), now, at, force);
      }
    }
  }

  /** A flush that stops early stops at a group with a row that is not due; nothing later was published past it. */
  lemma {:induction false} FlushStopsAtUndueGroup(t: Tables, at: int)
    ensures var left := Flush(t, at, false).fragments;
            left != [] ==> NotDue(left[..GroupLength(left)], at)
    decreases |t.fragments|
  {
    if t.fragments != [] {
      var n := GroupLength(t.fragments);
      if !NotDue(t.fragments[..n], at) {
        FlushStopsAtUndueGroup(PublishGroup(t, n), at);
      }
    }
  }

  /** A compaction pass keeps the invariant, so reconstruction still tells the truth about every survivor. */
  lemma DeleteKeepsSound(cal: Calendar, t: Tables, s: Settings, now: Docs)
    requires Sound(t, now)
    ensures Sound(Delete(t, PlanOf(cal, t, s)), now) && Extends(t, Delete(t, PlanOf(cal, t, s)))
  {
    var plan, gaps := PlanOf(cal, t, s), PlannedGaps(cal, t, s);
    var t' := Delete(t, plan);
    Survivors(cal, t, s);
    EndsByMembers(t.checkpoints, t'.checkpoints);
    forall c | c in t'.checkpoints
      ensures Faithful(c, t')
    {
      assert Faithful(c, t);
    }
    forall x, y | 1 <= x <= y <= |t'.trail.log| && x !in EventIds(t'.events) && (y in EventIds(t'.events) || y == |t'.trail.log|)
      ensures Bridged(t', x, y)
    {
      if x in EventIds(t.events) {
        GapIsBridged(cal, t, s, x, y, x);
      } else {
        assert EventIds(t'.events) <= EventIds(t.events);
        assert Bridged(t, x, y);
        var c :| c in t.checkpoints && x <= BaseOf(c) <= y;
        if c !in t'.checkpoints {
          assert StrictlyInside(gaps, BaseOf(c));
          GapIsBridged(cal, t, s, x, y, BaseOf(c));
        }
      }
    }
  }

  /** If something at or below y lies in a deleted gap and y does not, or y is the present, the gap's upper end bridges them. */
  lemma GapIsBridged(cal: Calendar, t: Tables, s: Settings, x: nat, y: nat, z: nat)
    requires Ledger(t) && Stored(t) && Anchored(t)
    requires 1 <= x <= z <= y <= |t.trail.log|
    requires InSomeGap(PlannedGaps(cal, t, s), z)
    requires y in EventIds(Delete(t, PlanOf(cal, t, s)).events) || y == |t.trail.log|
    ensures Bridged(Delete(t, PlanOf(cal, t, s)), x, y)
  {
    var gaps := PlannedGaps(cal, t, s);
    Survivors(cal, t, s);
    var g :| g in gaps && g.lower < z <= g.upper;
    var c := GapClosedBySurvivor(cal, t, s, g);
    assert Faithful(c, t);
    if y < g.upper {
      assert false;
    }
  }
}
