/** Events and room snapshots, and the replay of events on a snapshot. */
module Snapshots {
  import opened Wrappers
  import opened Records

  datatype Source = Human | Ai | System

  /** Who did what to what: the attribution shared by an event and the fragments it was made from. */
  datatype Header = Header(actorUserId: Option<string>, sessionId: Option<string>, eventType: string,
                           entityType: Option<string>, entityId: Option<string>, source: Source)

  type Metadata = map<string, string>

  datatype EventInput = EventInput(header: Header, createdAt: int, metadata: Metadata,
                                   changes: seq<Change>, documentClock: Option<int>)

  datatype Event = Event(id: nat, input: EventInput)

  datatype Entry = Entry(state: Record, lastChangedClock: int)

  datatype Snapshot = Snapshot(documents: map<Id, Entry>, tombstones: map<Id, int>, documentClock: int, clock: int)

  datatype Replayed = Rebuilt(snapshot: Snapshot) | Diverged(eventId: nat, recordId: Id)

  /** The document map of a snapshot: what a board looks like, without clocks. */
  function States(s: Snapshot): Docs {
    map id | id in s.documents :: s.documents[id].state
  }

  function Later(a: int, b: int): int {
    if a < b then b else a
  }

  function ChangeClock(s: Snapshot, e: Event): int {
    if e.input.documentClock.Some? then e.input.documentClock.value else s.documentClock + 1
  }

  function Put(s: Snapshot, c: Change, clock: int): Snapshot {
    if c.after.None? then
      s.(documents := s.documents - {c.recordId}, tombstones := s.tombstones[c.recordId := clock])
    else
      s.(documents := s.documents[c.recordId := Entry(c.after.value, clock)], tombstones := s.tombstones - {c.recordId})
  }

  /** Replays the changes of one event; reports the first record whose state is not its `before`. */
  function ApplyChanges(s: Snapshot, eventId: nat, cs: seq<Change>, clock: int): Replayed
    decreases |cs|
  {
    if cs == [] then Rebuilt(s)
    else if Lookup(States(s), cs[0].recordId) != cs[0].before then Diverged(eventId, cs[0].recordId)
    else ApplyChanges(Put(s, cs[0], clock), eventId, cs[1..], clock)
  }

  function ApplyEvents(s: Snapshot, es: seq<Event>): Replayed
    decreases |es|
  {
    if es == [] then Rebuilt(s)
    else
      var clock := ChangeClock(s, es[0]);
      var r := ApplyChanges(s, es[0].id, es[0].input.changes, clock);
      if r.Diverged? then r
      else ApplyEvents(r.snapshot.(documentClock := Later(s.documentClock, clock)), es[1..])
  }

  function Finish(r: Replayed): Replayed {
    if r.Rebuilt? then Rebuilt(r.snapshot.(clock := Later(r.snapshot.clock, r.snapshot.documentClock))) else r
  }

  function ApplyHistoryEvents(base: Snapshot, es: seq<Event>): Replayed {
    Finish(ApplyEvents(base, es))
  }

  /** Live records and tombstones are disjoint and nothing is stamped later than the document clock. */
  ghost predicate Consistent(s: Snapshot) {
    && s.documents.Keys !! s.tombstones.Keys
    && (forall id :: id in s.documents ==> s.documents[id].lastChangedClock <= s.documentClock)
    && (forall id :: id in s.tombstones ==> s.tombstones[id] <= s.documentClock)
  }

  lemma PutStates(s: Snapshot, c: Change, clock: int)
    ensures States(Put(s, c, clock)) == Write(States(s), c.recordId, c.after)
  {
  }

  lemma {:induction false} ApplyChangesStates(s: Snapshot, eventId: nat, cs: seq<Change>, clock: int)
    ensures var r := ApplyChanges(s, eventId, cs, clock);
            if r.Rebuilt?
            then Replay(States(s), cs) == Some(States(r.snapshot)) && r.snapshot.documentClock == s.documentClock
            else Replay(States(s), cs).None?
    decreases |cs|
  {
    if cs != [] && Lookup(States(s), cs[0].recordId) == cs[0].before {
      PutStates(s, cs[0], clock);
      ApplyChangesStates(Put(s, cs[0], clock), eventId, cs[1..], clock);
    }
  }

  function AllChanges(es: seq<Event>): seq<Change>
    decreases |es|
  {
    if es == [] then [] else es[0].input.changes + AllChanges(es[1..])
  }

  /**
   * Replaying events on a snapshot is replaying their changes on its document map: it diverges exactly
   * when the change list does, and otherwise ends in the same document map.
   */
  lemma {:induction false} ApplyEventsStates(s: Snapshot, es: seq<Event>)
    ensures var r := ApplyEvents(s, es);
            if r.Rebuilt? then Replay(States(s), AllChanges(es)) == Some(States(r.snapshot))
            else Replay(States(s), AllChanges(es)).None?
    decreases |es|
  {
    if es != [] {
      var clock := ChangeClock(s, es[0]);
      var r := ApplyChanges(s, es[0].id, es[0].input.changes, clock);
      ApplyChangesStates(s, es[0].id, es[0].input.changes, clock);
      ReplayConcat(States(s), es[0].input.changes, AllChanges(es[1..]));
      if r.Rebuilt? {
        var next := r.snapshot.(documentClock := Later(s.documentClock, clock));
        assert States(next) == States(r.snapshot);
        ApplyEventsStates(next, es[1..]);
      }
    }
  }

  lemma HistoryReplayStates(base: Snapshot, es: seq<Event>)
    ensures var r := ApplyHistoryEvents(base, es);
            if r.Rebuilt? then Replay(States(base), AllChanges(es)) == Some(States(r.snapshot))
            else Replay(States(base), AllChanges(es)).None?
  {
    ApplyEventsStates(base, es);
    var r := ApplyEvents(base, es);
    if r.Rebuilt? {
      assert States(Finish(r).snapshot) == States(r.snapshot);
    }
  }

  lemma {:induction false} ApplyChangesConsistent(s: Snapshot, eventId: nat, cs: seq<Change>, clock: int, limit: int)
    requires Consistent(s.(documentClock := limit)) && clock <= limit
    ensures var r := ApplyChanges(s, eventId, cs, clock);
            r.Rebuilt? ==> Consistent(r.snapshot.(documentClock := limit))
    decreases |cs|
  {
    if cs != [] && Lookup(States(s), cs[0].recordId) == cs[0].before {
      ApplyChangesConsistent(Put(s, cs[0], clock), eventId, cs[1..], clock, limit);
    }
  }

  lemma {:induction false} ApplyEventsConsistent(s: Snapshot, es: seq<Event>)
    requires Consistent(s)
    ensures var r := ApplyEvents(s, es);
            r.Rebuilt? ==> Consistent(r.snapshot) && s.documentClock <= r.snapshot.documentClock
    decreases |es|
  {
    if es != [] {
      var clock := ChangeClock(s, es[0]);
      var limit := Later(s.documentClock, clock);
      var r := ApplyChanges(s, es[0].id, es[0].input.changes, clock);
      ApplyChangesConsistent(s, es[0].id, es[0].input.changes, clock, limit);
      if r.Rebuilt? {
        ApplyEventsConsistent(r.snapshot.(documentClock := limit), es[1..]);
      }
    }
  }

  /**
   * Whatever the events, a successful replay keeps live records and tombstones apart, never moves the
   * document clock back, and leaves no stamp beyond it.
   */
  lemma ReplayKeepsClocks(base: Snapshot, es: seq<Event>)
    requires Consistent(base)
    ensures var r := ApplyHistoryEvents(base, es);
            r.Rebuilt? ==>
              && Consistent(r.snapshot)
              && base.documentClock <= r.snapshot.documentClock <= r.snapshot.clock
              && base.clock <= r.snapshot.clock
  {
    ApplyEventsConsistent(base, es);
    ApplyEventsClock(base, es);
  }

  lemma {:induction false} ApplyEventsClock(s: Snapshot, es: seq<Event>)
    ensures var r := ApplyEvents(s, es); r.Rebuilt? ==> r.snapshot.clock == s.clock
    decreases |es|
  {
    if es != [] {
      var clock := ChangeClock(s, es[0]);
      var r := ApplyChanges(s, es[0].id, es[0].input.changes, clock);
      ApplyChangesClock(s, es[0].id, es[0].input.changes, clock);
      if r.Rebuilt? {
        ApplyEventsClock(r.snapshot.(documentClock := Later(s.documentClock, clock)), es[1..]);
      }
    }
  }

  lemma {:induction false} ApplyChangesClock(s: Snapshot, eventId: nat, cs: seq<Change>, clock: int)
    ensures var r := ApplyChanges(s, eventId, cs, clock); r.Rebuilt? ==> r.snapshot.clock == s.clock
    decreases |cs|
  {
    if cs != [] && Lookup(States(s), cs[0].recordId) == cs[0].before {
      ApplyChangesClock(Put(s, cs[0], clock), eventId, cs[1..], clock);
    }
  }

  /** Walks the events over a copy of the snapshot's tables; stops at the first record that does not match. */
  method ReplayEvents(base: Snapshot, events: seq<Event>) returns (r: Replayed)
    ensures r == ApplyHistoryEvents(base, events)
  {
    var documents := base.documents;
    var tombstones := base.tombstones;
    var documentClock := base.documentClock;
    for i := 0 to |events|
      invariant ApplyEvents(base, events) ==
                ApplyEvents(Snapshot(documents, tombstones, documentClock, base.clock), events[i..])
    {
      var event := events[i];
      var changes := event.input.changes;
      var changeClock := if event.input.documentClock.Some? then event.input.documentClock.value else documentClock + 1;
      ghost var s0 := Snapshot(documents, tombstones, documentClock, base.clock);
      for k := 0 to |changes|
        invariant ApplyChanges(s0, event.id, changes, changeClock) ==
                  ApplyChanges(Snapshot(documents, tombstones, documentClock, base.clock), event.id, changes[k..], changeClock)
      {
        var change := changes[k];
        ghost var s := Snapshot(documents, tombstones, documentClock, base.clock);
        var current := if change.recordId in documents then Some(documents[change.recordId].state) else None;
        assert current == Lookup(States(s), change.recordId);
        assert changes[k..][0] == change && changes[k..][1..] == changes[k + 1..];
        if current != change.before {
          assert events[i..][0] == event;
          return Diverged(event.id, change.recordId);
        }
        match change.after
        case None =>
          documents := documents - {change.recordId};
          tombstones := tombstones[change.recordId := changeClock];
        case Some(record) =>
          documents := documents[change.recordId := Entry(record, changeClock)];
          tombstones := tombstones - {change.recordId};
      }
      assert events[i..][0] == event && events[i..][1..] == events[i + 1..];
      documentClock := Later(documentClock, changeClock);
    }
    r := Rebuilt(Snapshot(documents, tombstones, documentClock, Later(base.clock, documentClock)));
  }
}
