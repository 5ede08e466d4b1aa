/**
 * What a replay leaves of every record, said without replaying: its last change decides whether it is live or a
 * tombstone, and the event of that change stamps it. And what a reconstruction starts from and goes through, row by row.
 */
module Replaying {
  import opened Wrappers
  import opened Records
  import opened Snapshots
  import opened Tables

  /* ------------------------------------------------------------------- one event's changes */

  ghost predicate Unnamed(cs: seq<Change>, id: Id) {
    forall c :: c in cs ==> c.recordId != id
  }

  /** The k-th change is the last one that names the record. */
  ghost predicate NamedLast(cs: seq<Change>, id: Id, k: nat) {
    k < |cs| && cs[k].recordId == id && forall j :: k < j < |cs| ==> cs[j].recordId != id
  }

  /** The record is what it was: live with the same entry, a tombstone of the same stamp, or unheard of. */
  ghost predicate AsBefore(s: Snapshot, s': Snapshot, id: Id) {
    && (id in s'.documents <==> id in s.documents) && (id in s.documents ==> s'.documents[id] == s.documents[id])
    && (id in s'.tombstones <==> id in s.tombstones) && (id in s.tombstones ==> s'.tombstones[id] == s.tombstones[id])
  }

  /** A deleted record is a tombstone stamped with the clock, any other is live, in this state and with this stamp. */
  ghost predicate LeftAs(s: Snapshot, id: Id, after: Option<Record>, clock: int) {
    match after
    case None => id !in s.documents && id in s.tombstones && s.tombstones[id] == clock
    case Some(state) =>
      id !in s.tombstones && id in s.documents && s.documents[id].state == state && s.documents[id].lastChangedClock == clock
  }

  lemma {:induction false} ChangesLeave(s: Snapshot, eventId: nat, cs: seq<Change>, clock: int, id: Id)
    ensures var r := ApplyChanges(s, eventId, cs, clock);
            r.Rebuilt? ==>
              && r.snapshot.documentClock == s.documentClock
              && (Unnamed(cs, id) ==> AsBefore(s, r.snapshot, id))
              && forall k: nat :: NamedLast(cs, id, k) ==> LeftAs(r.snapshot, id, cs[k].after, clock)
    decreases |cs|
  {
    var r := ApplyChanges(s, eventId, cs, clock);
    if cs != [] && r.Rebuilt? {
      var s1, rest := Put(s, cs[0], clock), cs[1..];
      ChangesLeave(s1, eventId, rest, clock, id);
      forall k: nat | NamedLast(cs, id, k)
        ensures LeftAs(r.snapshot, id, cs[k].after, clock)
      {
        if k > 0 {
          assert rest[k - 1] == cs[k] && NamedLast(rest, id, k - 1);
        } else {
          assert Unnamed(rest, id);
        }
      }
    }
  }

  /* ------------------------------------------------------------------------- all events */

  /** The greatest of these clocks. */
  ghost predicate IsGreatest(clock: int, base: int, clocks: seq<int>) {
    && base <= clock && (forall i :: 0 <= i < |clocks| ==> clocks[i] <= clock)
    && (clock == base || exists i :: 0 <= i < |clocks| && clocks[i] == clock)
  }

  /** The clock of an event is its own if it has one, and otherwise one more than the greatest before it. */
  ghost predicate AreClocks(base: int, es: seq<Event>, clocks: seq<int>) {
    |clocks| == |es| && forall i :: 0 <= i < |es| ==>
      match es[i].input.documentClock
      case Some(clock) => clocks[i] == clock
      case None => IsGreatest(clocks[i] - 1, base, clocks[..i])
  }

  /** The i-th event is the last one that names the record. */
  ghost predicate ChangedLast(es: seq<Event>, id: Id, i: nat) {
    i < |es| && !Unnamed(es[i].input.changes, id) && forall j :: i < j < |es| ==> Unnamed(es[j].input.changes, id)
  }

  /** Every record named by no event is as in the base, and every other as the last change that names it left it. */
  ghost predicate Replays(base: Snapshot, es: seq<Event>, clocks: seq<int>, s: Snapshot)
    requires |clocks| == |es|
  {
    && (forall id :: (forall i :: 0 <= i < |es| ==> Unnamed(es[i].input.changes, id)) ==> AsBefore(base, s, id))
    && (forall id, i: nat, k: nat :: ChangedLast(es, id, i) && NamedLast(es[i].input.changes, id, k) ==>
          LeftAs(s, id, es[i].input.changes[k].after, clocks[i]))
  }

  lemma GreatestOfMore(clock: int, base: int, first: int, rest: seq<int>)
    requires IsGreatest(clock, Later(base, first), rest)
    ensures IsGreatest(clock, base, [first] + rest)
  {
    var all := [first] + rest;
    if clock != base {
      if clock == Later(base, first) {
        assert all[0] == clock;
      } else {
        var i :| 0 <= i < |rest| && rest[i] == clock;
        assert all[i + 1] == clock;
      }
    }
  }

  lemma ClocksOfMore(base: int, es: seq<Event>, first: int, rest: seq<int>)
    requires es != [] && first == (if es[0].input.documentClock.Some? then es[0].input.documentClock.value else base + 1)
    requires AreClocks(Later(base, first), es[1..], rest)
    ensures AreClocks(base, es, [first] + rest)
  {
    var all := [first] + rest;
    forall i | 0 <= i < |es|
      ensures match es[i].input.documentClock
              case Some(clock) => all[i] == clock
              case None => IsGreatest(all[i] - 1, base, all[..i])
    {
      if i > 0 {
        assert es[i] == es[1..][i - 1] && all[i] == rest[i - 1];
        if es[i].input.documentClock.None? {
          GreatestOfMore(all[i] - 1, base, first, rest[..i - 1]);
          assert all[..i] == [first] + rest[..i - 1];
        }
      }
    }
  }

  /** One record after the first event and the rest. */
  lemma RecordAfterMore(s: Snapshot, es: seq<Event>, first: int, rest: seq<int>, s1: Snapshot, next: Snapshot, s': Snapshot)
    requires es != [] && |rest| == |es| - 1 && Rebuilt(s1) == ApplyChanges(s, es[0].id, es[0].input.changes, first)
    requires next.documents == s1.documents && next.tombstones == s1.tombstones && Replays(next, es[1..], rest, s')
    ensures Replays(s, es, [first] + rest, s')
  {
    var all, tail := [first] + rest, es[1..];
    forall id | forall i :: 0 <= i < |es| ==> Unnamed(es[i].input.changes, id)
      ensures AsBefore(s, s', id)
    {
      ChangesLeave(s, es[0].id, es[0].input.changes, first, id);
      assert forall i :: 0 <= i < |tail| ==> tail[i] == es[i + 1];
      assert AsBefore(next, s', id);
    }
    forall id, i: nat, k: nat | ChangedLast(es, id, i) && NamedLast(es[i].input.changes, id, k)
      ensures LeftAs(s', id, es[i].input.changes[k].after, all[i])
    {
      assert forall j :: 0 <= j < |tail| ==> tail[j] == es[j + 1];
      if i > 0 {
        assert ChangedLast(tail, id, i - 1) && tail[i - 1] == es[i] && all[i] == rest[i - 1];
      } else {
        ChangesLeave(s, es[0].id, es[0].input.changes, first, id);
        assert AsBefore(next, s', id);
      }
    }
  }

  lemma {:induction false} EventsLeave(s: Snapshot, es: seq<Event>) returns (clocks: seq<int>)
    requires ApplyEvents(s, es).Rebuilt?
    ensures AreClocks(s.documentClock, es, clocks) && Replays(s, es, clocks, ApplyEvents(s, es).snapshot)
    ensures IsGreatest(ApplyEvents(s, es).snapshot.documentClock, s.documentClock, clocks)
    decreases |es|
  {
    clocks := [];
    if es != [] {
      var first := ChangeClock(s, es[0]);
      var s1 := ApplyChanges(s, es[0].id, es[0].input.changes, first).snapshot;
      var next := s1.(documentClock := Later(s.documentClock, first));
      var rest := EventsLeave(next, es[1..]);
      clocks := [first] + rest;
      ClocksOfMore(s.documentClock, es, first, rest);
      GreatestOfMore(ApplyEvents(s, es).snapshot.documentClock, s.documentClock, first, rest);
      RecordAfterMore(s, es, first, rest, s1, next, ApplyEvents(s, es).snapshot);
    }
  }

  /**
   * After a successful replay every record is what its last change made it, stamped with the clock of that event, and
   * every record no event names is as it was; the document clock is the greatest there has been.
   */
  lemma ReplayLeaves(base: Snapshot, es: seq<Event>) returns (clocks: seq<int>)
    requires ApplyHistoryEvents(base, es).Rebuilt?
    ensures var s := ApplyHistoryEvents(base, es).snapshot;
            && AreClocks(base.documentClock, es, clocks) && Replays(base, es, clocks, s)
            && IsGreatest(s.documentClock, base.documentClock, clocks)
            && IsGreatest(s.clock, base.clock, [s.documentClock])
  {
    clocks := EventsLeave(base, es);
    ApplyEventsClock(base, es);
    var s, finished := ApplyEvents(base, es).snapshot, ApplyHistoryEvents(base, es).snapshot;
    assert finished.documents == s.documents && finished.tombstones == s.tombstones;
    assert [s.documentClock][0] == s.documentClock;
    forall id | AsBefore(base, s, id)
      ensures AsBefore(base, finished, id)
    {
    }
  }

  /** So the records there are, live or as tombstones, are those of the base and those the events name. */
  lemma ReplayForgetsNone(base: Snapshot, es: seq<Event>, id: Id)
    requires ApplyHistoryEvents(base, es).Rebuilt?
    ensures var s := ApplyHistoryEvents(base, es).snapshot;
            id in s.documents || id in s.tombstones <==>
            id in base.documents || id in base.tombstones || exists i :: 0 <= i < |es| && !Unnamed(es[i].input.changes, id)
  {
    var s := ApplyHistoryEvents(base, es).snapshot;
    var clocks := ReplayLeaves(base, es);
    if i :| 0 <= i < |es| && !Unnamed(es[i].input.changes, id) {
      var last := LastChange(es, id, i);
      var k := LastNaming(es[last].input.changes, id);
      assert LeftAs(s, id, es[last].input.changes[k].after, clocks[last]);
    } else {
      assert AsBefore(base, s, id);
    }
  }

  lemma {:induction false} LastNaming(cs: seq<Change>, id: Id) returns (k: nat)
    requires !Unnamed(cs, id)
    ensures NamedLast(cs, id, k)
    decreases |cs|
  {
    k := |cs| - 1;
    if cs[k].recordId != id {
      var front := cs[..k];
      var c :| c in cs && c.recordId == id;
      assert c in front;
      k := LastNaming(front, id);
      assert front[k] == cs[k];
      forall j | k < j < |cs|
        ensures cs[j].recordId != id
      {
        assert j < |front| ==> front[j] == cs[j];
      }
    }
  }

  lemma {:induction false} LastChange(es: seq<Event>, id: Id, i: nat) returns (last: nat)
    requires i < |es| && !Unnamed(es[i].input.changes, id)
    ensures ChangedLast(es, id, last)
    decreases |es| - i
  {
    if j :| i < j < |es| && !Unnamed(es[j].input.changes, id) {
      last := LastChange(es, id, j);
    } else {
      last := i;
    }
  }

  /* ----------------------------------------------------------------------- reconstruction */

  /** The event a target stands for: itself, the checkpoint's base, or the last by id written no later than that time. */
  ghost predicate StandsFor(t: Tables, target: Target, y: Option<nat>) {
    match target
    case AtEvent(id) => y == Some(id)
    case AtCheckpoint(id) => exists c :: c in t.checkpoints && c.id == id && c.base == y
    case AtTime(at) =>
      match y
      case None => forall e :: e in t.events ==> e.input.createdAt > at
      case Some(id) =>
        && (exists e :: e in t.events && e.id == id && e.input.createdAt <= at)
        && (forall e :: e in t.events && e.input.createdAt <= at ==> e.id <= id)
  }

  /** A checkpoint can start the way to the event: it is based on nothing, or on that event or an earlier one. */
  ghost predicate Starts(c: Checkpoint, y: Option<nat>) {
    c.base.None? || (y.Some? && c.base.value <= y.value)
  }

  /** Based later, a base counting for later than none, or as late and written later. */
  ghost predicate StartsLater(c: Checkpoint, d: Checkpoint) {
    match (c.base, d.base)
    case (Some(x), Some(y)) => x > y || (x == y && c.id > d.id)
    case (Some(_), None) => true
    case (None, Some(_)) => false
    case (None, None) => c.id > d.id
  }

  /** The checkpoint named, or the one that starts latest on the way to the event. */
  ghost predicate StartedFrom(t: Tables, target: Target, y: Option<nat>, c: Checkpoint) {
    && c in t.checkpoints
    && match target
       case AtCheckpoint(id) => c.id == id
       case _ => Starts(c, y) && forall d :: d in t.checkpoints && Starts(d, y) && d != c ==> StartsLater(c, d)
  }

  /** Exactly the stored events after the checkpoint's base, up to the event, in order of their ids. */
  ghost predicate GoesThrough(t: Tables, c: Checkpoint, y: Option<nat>, es: seq<Event>) {
    && AscendingEvents(es)
    && forall e :: e in es <==> e in t.events && y.Some? && (c.base.Some? ==> c.base.value < e.id) && 0 < e.id <= y.value
  }

  lemma {:induction false} TimeStandsFor(es: seq<Event>, at: int)
    requires AscendingEvents(es)
    ensures match LastEventAt(es, at)
            case None => forall e :: e in es ==> e.input.createdAt > at
            case Some(id) =>
              && (exists e :: e in es && e.id == id && e.input.createdAt <= at)
              && (forall e :: e in es && e.input.createdAt <= at ==> e.id <= id)
    decreases |es|
  {
    if es != [] {
      var last := es[|es| - 1];
      SplitEvents(es);
      TimeStandsFor(es[..|es| - 1], at);
      assert last in es;
    }
  }

  lemma {:induction false} FoundCheckpoint(cs: seq<Checkpoint>, id: nat)
    ensures match FindCheckpoint(cs, id)
            case None => forall c :: c in cs ==> c.id != id
            case Some(c) => c in cs && c.id == id
    decreases |cs|
  {
    if cs != [] {
      FoundCheckpoint(cs[1..], id);
      assert forall c :: c in cs <==> c == cs[0] || c in cs[1..];
    }
  }

  /** What a reconstruction that comes to a result has done, all of it in terms of the rows. */
  ghost predicate Explained(t: Tables, target: Target, r: Reconstruction, c: Checkpoint, es: seq<Event>, clocks: seq<int>) {
    && StandsFor(t, target, r.targetEventId) && StartedFrom(t, target, r.targetEventId, c) && r.baseCheckpointId == c.id
    && GoesThrough(t, c, r.targetEventId, es) && r.appliedEventIds == IdsOf(es)
    && AreClocks(c.snapshot.documentClock, es, clocks) && Replays(c.snapshot, es, clocks, r.snapshot)
    && IsGreatest(r.snapshot.documentClock, c.snapshot.documentClock, clocks)
    && IsGreatest(r.snapshot.clock, c.snapshot.clock, [r.snapshot.documentClock])
  }

  lemma RebuildIsExplained(t: Tables, target: Target, y: Option<nat>, c: Checkpoint) returns (es: seq<Event>, clocks: seq<int>)
    requires AscendingEvents(t.events) && Rebuild(t, y, c).Ok?
    requires StandsFor(t, target, y) && StartedFrom(t, target, y, c)
    ensures Explained(t, target, Rebuild(t, y, c).value, c, es, clocks)
  {
    es := if y.None? then [] else EventsBetween(t.events, BaseOf(c), y.value);
    if y.Some? {
      BetweenMembers(t.events, BaseOf(c), y.value);
    }
    clocks := ReplayLeaves(c.snapshot, es);
  }

  lemma BestStartsLatest(t: Tables, target: Target, y: Option<nat>)
    requires AscendingCheckpoints(t.checkpoints) && !target.AtCheckpoint?
    ensures match BestCheckpoint(t.checkpoints, y)
            case None => forall c :: c in t.checkpoints ==> !Starts(c, y)
            case Some(c) => StartedFrom(t, target, y, c)
  {
    BestIsBest(t.checkpoints, y);
    match BestCheckpoint(t.checkpoints, y)
    case None =>
    case Some(c) =>
      forall d | d in t.checkpoints && Starts(d, y) && d != c
        ensures StartsLater(c, d)
      {
        assert Eligible(d, y) && Outranks(c, d);
      }
  }

  /** Every reconstruction, of whatever target, is explained by the rows. */
  lemma ReconstructionIsExplained(t: Tables, target: Target) returns (c: Checkpoint, es: seq<Event>, clocks: seq<int>)
    requires AscendingEvents(t.events) && AscendingCheckpoints(t.checkpoints)
    requires Reconstruct(t, target).Ok?
    ensures Explained(t, target, Reconstruct(t, target).value, c, es, clocks)
  {
    match target
    case AtEvent(id) =>
      BestStartsLatest(t, target, Some(id));
      c := BestCheckpoint(t.checkpoints, Some(id)).value;
      es, clocks := RebuildIsExplained(t, target, Some(id), c);
    case AtTime(at) =>
      TimeStandsFor(t.events, at);
      var y := LastEventAt(t.events, at);
      BestStartsLatest(t, target, y);
      c := BestCheckpoint(t.checkpoints, y).value;
      es, clocks := RebuildIsExplained(t, target, y, c);
    case AtCheckpoint(id) =>
      FoundCheckpoint(t.checkpoints, id);
      c := FindCheckpoint(t.checkpoints, id).value;
      es, clocks := RebuildIsExplained(t, target, c.base, c);
  }

  /** And when it comes to none, by what: no such event, no such checkpoint, none to start from, or a record that differs. */
  lemma FailureIsExplained(t: Tables, target: Target)
    requires AscendingEvents(t.events) && AscendingCheckpoints(t.checkpoints) && Reconstruct(t, target).Err?
    ensures match Reconstruct(t, target).error
            case EventNotFound => target.AtEvent? && forall e :: e in t.events ==> e.id != target.eventId
            case CheckpointNotFound => target.AtCheckpoint? && forall c :: c in t.checkpoints ==> c.id != target.checkpointId
            case NoCheckpoint =>
              !target.AtCheckpoint? && exists y :: StandsFor(t, target, y) && forall c :: c in t.checkpoints ==> !Starts(c, y)
            case Divergence(eventId, _) => exists e :: e in t.events && e.id == eventId
  {
    match target
    case AtEvent(id) =>
      BestStartsLatest(t, target, Some(id));
      assert StandsFor(t, target, Some(id));
      if BestCheckpoint(t.checkpoints, Some(id)).Some? && id in EventIds(t.events) {
        DivergesAtAnEvent(t, Some(id), BestCheckpoint(t.checkpoints, Some(id)).value);
      }
    case AtTime(at) =>
      TimeStandsFor(t.events, at);
      var y := LastEventAt(t.events, at);
      BestStartsLatest(t, target, y);
      assert StandsFor(t, target, y);
      if BestCheckpoint(t.checkpoints, y).Some? {
        DivergesAtAnEvent(t, y, BestCheckpoint(t.checkpoints, y).value);
      }
    case AtCheckpoint(id) =>
      FoundCheckpoint(t.checkpoints, id);
      if FindCheckpoint(t.checkpoints, id).Some? {
        DivergesAtAnEvent(t, FindCheckpoint(t.checkpoints, id).value.base, FindCheckpoint(t.checkpoints, id).value);
      }
  }

  lemma DivergesAtAnEvent(t: Tables, y: Option<nat>, c: Checkpoint)
    requires AscendingEvents(t.events)
    ensures Rebuild(t, y, c).Err? ==>
              Rebuild(t, y, c).error.Divergence? && exists e :: e in t.events && e.id == Rebuild(t, y, c).error.eventId
  {
    if Rebuild(t, y, c).Err? && y.Some? {
      var es := EventsBetween(t.events, BaseOf(c), y.value);
      BetweenMembers(t.events, BaseOf(c), y.value);
      var e := DivergesAt(c.snapshot, es);
    }
  }

  lemma {:induction false} DivergesAt(s: Snapshot, es: seq<Event>) returns (e: Event)
    requires ApplyEvents(s, es).Diverged?
    ensures e in es && e.id == ApplyEvents(s, es).eventId
    decreases |es|
  {
    var clock := ChangeClock(s, es[0]);
    var r := ApplyChanges(s, es[0].id, es[0].input.changes, clock);
    e := es[0];
    if r.Rebuilt? {
      e := DivergesAt(r.snapshot.(documentClock := Later(s.documentClock, clock)), es[1..]);
    } else {
      DivergesHere(s, es[0].id, es[0].input.changes, clock);
    }
  }

  lemma {:induction false} DivergesHere(s: Snapshot, eventId: nat, cs: seq<Change>, clock: int)
    ensures var r := ApplyChanges(s, eventId, cs, clock); r.Diverged? ==> r.eventId == eventId
    decreases |cs|
  {
    if cs != [] && Lookup(States(s), cs[0].recordId) == cs[0].before {
      DivergesHere(Put(s, cs[0], clock), eventId, cs[1..], clock);
    }
  }
}
