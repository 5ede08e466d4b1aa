/** What a flush makes of the staged edits, row by row: one event for every run of edits that belong together. */
module Coalescing {
  import opened Merge
  import opened Snapshots
  import opened Tables

  /** Edits of the same kind, to the same entity, by the same person in the same session, under the same key. */
  ghost predicate BelongTogether(a: Fragment, b: Fragment) {
    && a.input.header.actorUserId == b.input.header.actorUserId && a.input.header.sessionId == b.input.header.sessionId
    && a.input.header.source == b.input.header.source && a.input.header.eventType == b.input.header.eventType
    && a.input.header.entityType == b.input.header.entityType && a.input.header.entityId == b.input.header.entityId
    && a.coalesceKey == b.coalesceKey
  }

  /** That is all that is asked of rows of one group: their ids, times and changes may differ. */
  lemma GroupedMeansTogether(a: Fragment, b: Fragment)
    ensures SameGroup(a, b) <==> BelongTogether(a, b)
  {
  }

  /** A longest run from the start: all of it belongs together, and the row after it, if there is one, does not. */
  ghost predicate IsRun(fs: seq<Fragment>, n: nat) {
    && 0 < n <= |fs| && (forall i :: 0 <= i < n ==> BelongTogether(fs[0], fs[i]))
    && (n < |fs| ==> !BelongTogether(fs[0], fs[n]))
  }

  lemma {:induction false} GroupIsRun(fs: seq<Fragment>)
    requires fs != []
    ensures IsRun(fs, GroupLength(fs))
    decreases |fs|
  {
    if |fs| > 1 && SameGroup(fs[0], fs[1]) {
      var n := GroupLength(fs[1..]);
      GroupIsRun(fs[1..]);
      forall i | 0 <= i < n + 1
        ensures BelongTogether(fs[0], fs[i])
      {
        assert i > 0 ==> fs[i] == fs[1..][i - 1];
      }
    }
  }

  /** The value the last row that has this key gives it. */
  ghost predicate LastValue(run: seq<Fragment>, key: string, value: string) {
    exists i :: 0 <= i < |run| && key in run[i].input.metadata && run[i].input.metadata[key] == value &&
      forall j :: i < j < |run| ==> key !in run[j].input.metadata
  }

  /** An event that speaks for the run: attributed like its rows, timed like the last of them, carrying their net changes. */
  ghost predicate SpeaksFor(input: EventInput, run: seq<Fragment>) {
    && run != [] && (forall f :: f in run ==> f.input.header == input.header)
    && input.createdAt == run[|run| - 1].input.createdAt && input.documentClock == run[|run| - 1].input.documentClock
    && input.changes == Merged(seq(|run|, i requires 0 <= i < |run| => run[i].input.changes))
    && (forall key :: key in input.metadata <==> exists f :: f in run && key in f.input.metadata)
    && (forall key :: key in input.metadata ==> LastValue(run, key, input.metadata[key]))
  }

  lemma {:induction false} MetadataIsLast(group: seq<Fragment>, key: string)
    ensures key in GroupMetadata(group) <==> exists f :: f in group && key in f.input.metadata
    ensures key in GroupMetadata(group) ==> LastValue(group, key, GroupMetadata(group)[key])
    decreases |group|
  {
    if group != [] {
      var n := |group| - 1;
      var front, last := group[..n], group[n];
      MetadataIsLast(front, key);
      assert forall f :: f in group <==> f in front || f == last;
      if key in last.input.metadata {
        assert GroupMetadata(group)[key] == group[n].input.metadata[key];
      } else if key in GroupMetadata(front) {
        var value := GroupMetadata(front)[key];
        var i :| 0 <= i < |front| && key in front[i].input.metadata && front[i].input.metadata[key] == value &&
          forall j :: i < j < |front| ==> key !in front[j].input.metadata;
        assert group[i] == front[i];
        forall j | i < j < |group|
          ensures key !in group[j].input.metadata
        {
          assert j < n ==> group[j] == front[j];
        }
      }
    }
  }

  lemma GroupEventSpeaks(fs: seq<Fragment>, n: nat)
    requires IsRun(fs, n)
    ensures SpeaksFor(GroupEvent(fs[..n]), fs[..n])
  {
    var group := fs[..n];
    forall f | f in group
      ensures f.input.header == group[0].input.header
    {
      var i :| 0 <= i < n && fs[i] == f;
      assert BelongTogether(fs[0], fs[i]);
    }
    forall key
      ensures key in GroupMetadata(group) <==> exists f :: f in group && key in f.input.metadata
      ensures key in GroupMetadata(group) ==> LastValue(group, key, GroupMetadata(group)[key])
    {
      MetadataIsLast(group, key);
    }
    assert GroupChanges(group) == seq(|group|, i requires 0 <= i < |group| => group[i].input.changes);
  }

  /** These are the events of these runs, under the ids that follow: one for each run that has anything to say. */
  ghost predicate EventsOf(runs: seq<seq<Fragment>>, events: seq<Event>, lastId: nat)
    decreases |runs|
  {
    if runs == [] then events == []
    else if SaysNothing(runs[0]) then EventsOf(runs[1..], events, lastId)
    else
      && events != [] && events[0].id == lastId + 1 && SpeaksFor(events[0].input, runs[0])
      && EventsOf(runs[1..], events[1..], lastId + 1)
  }

  /** The net change is empty and no row has any metadata. */
  ghost predicate SaysNothing(run: seq<Fragment>) {
    && Merged(seq(|run|, i requires 0 <= i < |run| => run[i].input.changes)) == []
    && forall f :: f in run ==> f.input.metadata == map[]
  }

  lemma SilentIsEmpty(input: EventInput, run: seq<Fragment>)
    requires SpeaksFor(input, run)
    ensures SaysNothing(run) <==> input.changes == [] && input.metadata == map[]
  {
    if input.metadata == map[] {
      forall f | f in run
        ensures f.input.metadata == map[]
      {
        forall key
          ensures key !in f.input.metadata
        {
          assert key !in input.metadata;
        }
      }
    }
    if SaysNothing(run) {
      assert forall key :: key !in input.metadata;
    }
  }

  lemma SpokenFor(fs: seq<Fragment>, n: nat)
    requires IsRun(fs, n)
    ensures var input := GroupEvent(fs[..n]); SpeaksFor(input, fs[..n]) && (SaysNothing(fs[..n]) <==> input.changes == [] && input.metadata == map[])
  {
    GroupEventSpeaks(fs, n);
    SilentIsEmpty(GroupEvent(fs[..n]), fs[..n]);
  }

  function Joined(runs: seq<seq<Fragment>>): seq<Fragment>
    decreases |runs|
  {
    if runs == [] then [] else runs[0] + Joined(runs[1..])
  }

  /** Cut where neighbouring rows do not belong together and nowhere else. */
  ghost predicate AreRuns(runs: seq<seq<Fragment>>, rest: seq<Fragment>)
    decreases |runs|
  {
    runs == [] || (runs[0] != [] && IsRun(runs[0] + Joined(runs[1..]) + rest, |runs[0]|) && AreRuns(runs[1..], rest))
  }

  /** Every row of the run may be published by now. */
  ghost predicate AllDue(run: seq<Fragment>, now: int) {
    forall f :: f in run ==> f.flushAfter <= now
  }

  /** Why a flush left these rows: there are none, or it was not forced and some row of the first run is not due. */
  ghost predicate LeftBehind(rest: seq<Fragment>, now: int, force: bool) {
    rest == [] || (!force && exists n: nat :: IsRun(rest, n) && !AllDue(rest[..n], now))
  }

  /** These runs were published as these events; what is left begins with a run that is not due, or nothing is left. */
  ghost predicate Published(t: Tables, t': Tables, runs: seq<seq<Fragment>>, events: seq<Event>, now: int, force: bool) {
    && t.fragments == Joined(runs) + t'.fragments && AreRuns(runs, t'.fragments)
    && t'.events == t.events + events && EventsOf(runs, events, t.lastEventId)
    && (force || forall i :: 0 <= i < |runs| ==> AllDue(runs[i], now))
    && LeftBehind(t'.fragments, now, force)
  }

  /**
   * A flush publishes whole runs from the first staged row on, each as one event if it has anything to say, and stops at
   * the first run that is not due, or never if it is forced.
   */
  lemma {:induction false} FlushPublishesRuns(t: Tables, now: int, force: bool) returns (runs: seq<seq<Fragment>>, events: seq<Event>)
    ensures Published(t, Flush(t, now, force), runs, events, now, force)
    decreases |t.fragments|
  {
    runs, events := [], [];
    if t.fragments != [] {
      var n := GroupLength(t.fragments);
      GroupIsRun(t.fragments);
      if !force && NotDue(t.fragments[..n], now) {
        assert !AllDue(t.fragments[..n], now);
      } else {
        var t1, t' := PublishGroup(t, n), Flush(t, now, force);
        var more, added := FlushPublishesRuns(t1, now, force);
        runs, events := OneMorePublished(t, t', n, more, added, now, force);
      }
    }
  }

  lemma OneMorePublished(t: Tables, t': Tables, n: nat, more: seq<seq<Fragment>>, added: seq<Event>, now: int, force: bool)
    returns (runs: seq<seq<Fragment>>, events: seq<Event>)
    requires IsRun(t.fragments, n) && (force || !NotDue(t.fragments[..n], now)) && Published(PublishGroup(t, n), t', more, added, now, force)
    ensures Published(t, t', runs, events, now, force)
  {
    var first := t.fragments[..n];
    runs := [first] + more;
    events := if SaysNothing(first) then added else [Event(t.lastEventId + 1, GroupEvent(first))] + added;
    OneMoreRun(t, n, more, added, t'.fragments);
    forall i | 0 <= i < |runs| && !force
      ensures AllDue(runs[i], now)
    {
      assert i > 0 ==> runs[i] == more[i - 1];
    }
  }

  lemma OneMoreRun(t: Tables, n: nat, more: seq<seq<Fragment>>, added: seq<Event>, rest: seq<Fragment>)
    requires IsRun(t.fragments, n) && AreRuns(more, rest) && t.fragments[n..] == Joined(more) + rest
    requires EventsOf(more, added, PublishGroup(t, n).lastEventId)
    ensures var first := t.fragments[..n];
            var runs := [first] + more;
            var events := if SaysNothing(first) then added else [Event(t.lastEventId + 1, GroupEvent(first))] + added;
            && t.fragments == Joined(runs) + rest && AreRuns(runs, rest)
            && PublishGroup(t, n).events + added == t.events + events && EventsOf(runs, events, t.lastEventId)
  {
    JoinOne(t.fragments, n, more, rest);
    WriteOne(t, n, more, added);
  }

  lemma JoinOne(fs: seq<Fragment>, n: nat, more: seq<seq<Fragment>>, rest: seq<Fragment>)
    requires IsRun(fs, n) && AreRuns(more, rest) && fs[n..] == Joined(more) + rest
    ensures fs == Joined([fs[..n]] + more) + rest && AreRuns([fs[..n]] + more, rest)
  {
    var runs := [fs[..n]] + more;
    assert runs[0] == fs[..n] && runs[1..] == more;
    assert Joined(runs) == fs[..n] + Joined(more);
    assert runs[0] + Joined(runs[1..]) + rest == fs;
  }

  lemma WriteOne(t: Tables, n: nat, more: seq<seq<Fragment>>, added: seq<Event>)
    requires IsRun(t.fragments, n) && EventsOf(more, added, PublishGroup(t, n).lastEventId)
    ensures var first := t.fragments[..n];
            var events := if SaysNothing(first) then added else [Event(t.lastEventId + 1, GroupEvent(first))] + added;
            && PublishGroup(t, n).events + added == t.events + events && EventsOf([first] + more, events, t.lastEventId)
  {
    var first := t.fragments[..n];
    var runs := [first] + more;
    var input := GroupEvent(first);
    SpokenFor(t.fragments, n);
    if SaysNothing(first) {
      assert runs[0] == first && runs[1..] == more;
    } else {
      WriteFirst(first, more, input, added, t.lastEventId);
    }
  }

  lemma WriteFirst(first: seq<Fragment>, more: seq<seq<Fragment>>, input: EventInput, added: seq<Event>, lastId: nat)
    requires !SaysNothing(first) && SpeaksFor(input, first) && EventsOf(more, added, lastId + 1)
    ensures EventsOf([first] + more, [Event(lastId + 1, input)] + added, lastId)
  {
    var runs, events := [first] + more, [Event(lastId + 1, input)] + added;
    assert runs[0] == first && runs[1..] == more;
    assert events[0].input == input && events[1..] == added;
  }

  /** Rows that all belong together are one edit: a forced flush writes one event if they changed or said anything. */
  lemma OneRunIsOneEvent(t: Tables)
    requires t.fragments != [] && forall f :: f in t.fragments ==> BelongTogether(t.fragments[0], f)
    ensures var t' := ForceFlush(t);
            && t'.fragments == [] && t.events <= t'.events
            && (if SaysNothing(t.fragments) then t'.events == t.events
                else |t'.events| == |t.events| + 1 && t'.events[|t.events|].id == t.lastEventId + 1 && SpeaksFor(t'.events[|t.events|].input, t.fragments))
  {
    var fs := t.fragments;
    GroupIsRun(fs);
    if GroupLength(fs) < |fs| {
      assert false;
    }
    assert fs[..|fs|] == fs;
    SpokenFor(fs, |fs|);
    var t1 := PublishGroup(t, |fs|);
    assert t1.fragments == [] && ForceFlush(t) == Flush(t1, 0, true);
  }
}
