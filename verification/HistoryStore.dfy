/** The board history store: the tables as mutable state, every method proved against its table operation. */
module HistoryStore {
  import opened Wrappers
  import opened Records
  import opened Merge
  import opened Snapshots
  import opened Tables
  import Table = Tables

  /* ------------------------------------------------------- grouping of staged rows */

  function GroupsOf(fs: seq<Fragment>): seq<seq<Fragment>>
    decreases |fs|
  {
    if fs == [] then [] else [fs[..GroupLength(fs)]] + GroupsOf(fs[GroupLength(fs)..])
  }

  /** A group is the longest run of rows from the first one that share its attribution and coalescing key. */
  lemma {:induction false} GroupIsMaximalRun(fs: seq<Fragment>)
    requires fs != []
    ensures forall i :: 0 <= i < GroupLength(fs) ==> SameGroup(fs[0], fs[i])
    ensures GroupLength(fs) < |fs| ==> !SameGroup(fs[0], fs[GroupLength(fs)])
    decreases |fs|
  {
    if |fs| > 1 && SameGroup(fs[0], fs[1]) {
      GroupIsMaximalRun(fs[1..]);
      forall i | 0 <= i < GroupLength(fs)
        ensures SameGroup(fs[0], fs[i])
      {
        if i > 0 { assert fs[1..][i - 1] == fs[i]; }
      }
    }
  }

  /** Edits are never merged across people, sessions or kinds of edit: an event speaks for every row it was made of. */
  lemma GroupEventSpeaksForAll(fs: seq<Fragment>)
    requires fs != []
    ensures var group := fs[..GroupLength(fs)];
            forall f :: f in group ==> f.input.header == GroupEvent(group).header && f.coalesceKey == group[0].coalesceKey
  {
    GroupIsMaximalRun(fs);
  }

  lemma SingleGroup(f: Fragment)
    ensures GroupsOf([f]) == [[f]]
  {
    assert [f][..1] == [f] && [f][1..] == [];
  }

  function WithRow(gs: seq<seq<Fragment>>, f: Fragment): seq<seq<Fragment>>
    requires gs != [] && gs[|gs| - 1] != []
  {
    var last := |gs| - 1;
    if SameGroup(gs[last][0], f) then gs[..last] + [gs[last] + [f]] else gs + [[f]]
  }

  lemma LastOfCons(head: seq<Fragment>, gs: seq<seq<Fragment>>, f: Fragment)
    requires gs != [] && gs[|gs| - 1] != []
    ensures WithRow([head] + gs, f) == [head] + WithRow(gs, f)
  {
  }

  lemma {:induction false} GroupsOfLastRow(fs: seq<Fragment>, f: Fragment)
    requires fs != []
    ensures var gs := GroupsOf(fs);
            && gs != [] && gs[|gs| - 1] != []
            && GroupsOf(fs + [f]) == WithRow(gs, f)
    decreases |fs|
  {
    var n, all := GroupLength(fs), fs + [f];
    GroupLengthOfLonger(fs, f);
    if n < |fs| {
      GroupsOfLastRow(fs[n..], f);
      assert GroupsOf(all) == [fs[..n]] + GroupsOf(fs[n..] + [f]) by {
        assert all[..n] == fs[..n] && all[n..] == fs[n..] + [f];
      }
      LastOfCons(fs[..n], GroupsOf(fs[n..]), f);
    } else {
      OneGroup(fs);
      RowAfterOneGroup(fs, f);
    }
  }

  lemma RowAfterOneGroup(fs: seq<Fragment>, f: Fragment)
    requires fs != [] && GroupLength(fs) == |fs|
    ensures GroupsOf(fs + [f]) == WithRow([fs], f)
  {
    var all := fs + [f];
    GroupLengthOfLonger(fs, f);
    if SameGroup(fs[0], f) {
      OneGroup(all);
    } else {
      assert all[..|fs|] == fs && all[|fs|..] == [f];
      SingleGroup(f);
    }
  }

  lemma OneGroup(fs: seq<Fragment>)
    requires fs != [] && GroupLength(fs) == |fs|
    ensures GroupsOf(fs) == [fs]
  {
    assert fs[..|fs|] == fs && fs[|fs|..] == [];
  }

  lemma {:induction false} GroupLengthOfLonger(fs: seq<Fragment>, f: Fragment)
    requires fs != []
    ensures GroupLength(fs + [f]) ==
            if GroupLength(fs) == |fs| && SameGroup(fs[0], f) then |fs| + 1 else GroupLength(fs)
    decreases |fs|
  {
    var all := fs + [f];
    assert all[0] == fs[0];
    if |fs| > 1 {
      assert all[1..] == fs[1..] + [f] && all[1] == fs[1];
      GroupLengthOfLonger(fs[1..], f);
    } else {
      assert all[1..] == [f];
    }
  }

  /** The rows of one table page are walked once; a row joins the last group or starts a new one. */
  method GroupFragments(pending: seq<Fragment>) returns (groups: seq<seq<Fragment>>)
    ensures groups == GroupsOf(pending)
  {
    groups := [];
    for i := 0 to |pending|
      invariant groups == GroupsOf(pending[..i])
    {
      var row := pending[i];
      assert pending[..i + 1] == pending[..i] + [row];
      if i > 0 {
        GroupsOfLastRow(pending[..i], row);
        var last := |groups| - 1;
        if SameGroup(groups[last][0], row) {
          groups := groups[..last] + [groups[last] + [row]];
        } else {
          groups := groups + [[row]];
        }
      } else {
        assert pending[..1] == [row];
        SingleGroup(row);
        groups := [[row]];
      }
    }
    assert pending[..|pending|] == pending;
  }

  /** DELETE ... WHERE id BETWEEN lo AND hi. */
  function OutsideRange(fs: seq<Fragment>, lo: nat, hi: nat): seq<Fragment>
    decreases |fs|
  {
    if fs == [] then []
    else if lo <= fs[0].id <= hi then OutsideRange(fs[1..], lo, hi)
    else [fs[0]] + OutsideRange(fs[1..], lo, hi)
  }

  lemma {:induction false} NothingInRange(fs: seq<Fragment>, lo: nat, hi: nat)
    requires forall f :: f in fs ==> hi < f.id
    ensures OutsideRange(fs, lo, hi) == fs
    decreases |fs|
  {
    if fs != [] {
      assert fs[0] in fs;
      NothingInRange(fs[1..], lo, hi);
    }
  }

  /** On rows in id order, deleting the id range of the first n rows drops exactly those rows. */
  lemma {:induction false} RangeIsPrefix(fs: seq<Fragment>, n: nat, lo: nat)
    requires AscendingFragments(fs) && 1 <= n <= |fs| && lo <= fs[0].id
    ensures OutsideRange(fs, lo, fs[n - 1].id) == fs[n..]
    decreases n
  {
    if n == 1 {
      NothingInRange(fs[1..], lo, fs[0].id);
    } else {
      assert fs[1..][n - 2] == fs[n - 1] && fs[1..][n - 1..] == fs[n..];
      RangeIsPrefix(fs[1..], n - 1, lo);
    }
  }

  lemma {:induction false} OutsideRangeRows(fs: seq<Fragment>, lo: nat, hi: nat)
    requires AscendingFragments(fs)
    ensures forall f :: f in OutsideRange(fs, lo, hi) ==> f in fs
    ensures AscendingFragments(OutsideRange(fs, lo, hi))
    decreases |fs|
  {
    if fs != [] {
      OutsideRangeRows(fs[1..], lo, hi);
      forall f | f in fs[1..]
        ensures fs[0].id < f.id
      {
        var k :| 0 <= k < |fs[1..]| && fs[1..][k] == f;
        assert fs[k + 1] == f;
      }
    }
  }

  method SelectOutside(fs: seq<Fragment>, lo: nat, hi: nat) returns (kept: seq<Fragment>)
    ensures kept == OutsideRange(fs, lo, hi)
  {
    kept := [];
    for i := 0 to |fs|
      invariant kept + OutsideRange(fs[i..], lo, hi) == OutsideRange(fs, lo, hi)
    {
      assert fs[i..][0] == fs[i] && fs[i..][1..] == fs[i + 1..];
      if !(lo <= fs[i].id <= hi) {
        kept := kept + [fs[i]];
      }
    }
  }

  lemma NextGroup(groups: seq<seq<Fragment>>, g: nat, fs: seq<Fragment>)
    requires g < |groups| && groups[g..] == GroupsOf(fs)
    ensures fs != [] && groups[g] == fs[..GroupLength(fs)] && groups[g + 1..] == GroupsOf(fs[GroupLength(fs)..])
  {
    assert groups[g..][0] == groups[g] && groups[g..][1..] == groups[g + 1..];
    assert fs != [];
  }

  lemma PrefixAndRest(xs: seq<Event>, ys: seq<Event>)
    requires xs <= ys
    ensures ys == xs + ys[|xs|..]
  {
  }

  lemma FlushUnfold(t: Tables, at: int, force: bool)
    requires t.fragments != []
    ensures var n := GroupLength(t.fragments);
            && GroupsOf(t.fragments) == [t.fragments[..n]] + GroupsOf(t.fragments[n..])
            && Flush(t, at, force) == if !force && NotDue(t.fragments[..n], at) then t else Flush(PublishGroup(t, n), at, force)
  {
  }

  /* --------------------------------------------------------------------- the store */

  class BoardHistoryStore {
    var events: seq<Event>
    var fragments: seq<Fragment>
    var checkpoints: seq<Checkpoint>
    var lastEventId: nat
    var lastFragmentId: nat
    var lastCheckpointId: nat
    ghost var trail: Trail

    ghost function State(): Tables
      reads this
    {
      Tables(events, fragments, checkpoints, lastEventId, lastFragmentId, lastCheckpointId, trail)
    }

    /** Staged rows are in id order, at most at their sequence: what the table definition guarantees. */
    ghost predicate Valid()
      reads this
    {
      AscendingFragments(fragments) && forall f :: f in fragments ==> f.id <= lastFragmentId
    }

    constructor (ghost initial: Docs)
      ensures Valid()
      ensures State() == Tables([], [], [], 0, 0, 0, Trail([], [initial], map[]))
    {
      events, fragments, checkpoints := [], [], [];
      lastEventId, lastFragmentId, lastCheckpointId := 0, 0, 0;
      trail := Trail([], [initial], map[]);
    }

    method InsertEvent(input: EventInput, ghost now: Docs) returns (e: Event)
      requires Valid() && ValidChanges(input.changes)
      modifies this
      ensures Valid() && State() == Table.InsertEvent(old(State()), input, now)
      ensures e == Event(lastEventId, input) && events == old(events) + [e]
    {
      e := Event(lastEventId + 1, input);
      events, lastEventId := events + [e], e.id;
      trail := trail.(log := trail.log + [e], asOf := trail.asOf + [now]);
    }

    /** Publishes the due groups, or all of them, in order; stops for good at the first group that is not due. */
    method FlushFragments(at: int, force: bool) returns (published: seq<Event>)
      requires Valid()
      modifies this
      ensures Valid() && State() == Flush(old(State()), at, force)
      ensures events == old(events) + published
    {
      var groups := GroupFragments(fragments);
      var already := |events|;
      FlushOnlyAppends(State(), at, force);
      PublishGroups(groups, at, force);
      published := events[already..];
      PrefixAndRest(old(events), events);
    }

    method PublishGroups(groups: seq<seq<Fragment>>, at: int, force: bool)
      requires Valid() && groups == GroupsOf(fragments)
      modifies this
      ensures Valid() && State() == Flush(old(State()), at, force)
    {
      for g := 0 to |groups|
        invariant Valid() && groups[g..] == GroupsOf(fragments)
        invariant Flush(State(), at, force) == Flush(old(State()), at, force)
      {
        NextGroup(groups, g, fragments);
        var stop := FlushGroup(groups[g], at, force);
        if stop { return; }
      }
    }

    method FlushGroup(group: seq<Fragment>, at: int, force: bool) returns (stop: bool)
      requires Valid() && fragments != [] && group == fragments[..GroupLength(fragments)]
      modifies this
      ensures Valid()
      ensures stop <==> !force && NotDue(group, at)
      ensures State() == if stop then old(State()) else PublishGroup(old(State()), |group|)
      ensures Flush(old(State()), at, force) == if stop then State() else Flush(State(), at, force)
      ensures !stop ==> fragments == old(fragments[|group|..])
    {
      FlushUnfold(State(), at, force);
      stop := false;
      if !force {
        var due := AllDue(group, at);
        stop := !due;
      }
      if !stop {
        PublishGroupRows(group);
      }
    }

    method AllDue(group: seq<Fragment>, at: int) returns (due: bool)
      ensures due <==> !NotDue(group, at)
    {
      for i := 0 to |group|
        invariant forall k :: 0 <= k < i ==> group[k].flushAfter <= at
      {
        if group[i].flushAfter > at {
          assert group[i] in group;
          return false;
        }
      }
      return true;
    }

    /** One group: merge, insert unless there is nothing to say, delete its rows by id range. */
    method PublishGroupRows(group: seq<Fragment>)
      requires Valid() && 1 <= |group| <= |fragments| && group == fragments[..|group|]
      modifies this
      ensures Valid() && State() == PublishGroup(old(State()), |group|)
    {
      var first, last := group[0], group[|group| - 1];
      var changes := MergeChanges(GroupChanges(group));
      var metadata := MergeMetadata(group);
      if changes != [] || metadata != map[] {
        var input := EventInput(first.input.header, last.input.createdAt, metadata, changes, last.input.documentClock);
        var e := InsertEvent(input, DocsAfter(State(), last));
      }
      RangeIsPrefix(fragments, |group|, first.id);
      DeleteRange(first.id, last.id);
    }

    method MergeMetadata(group: seq<Fragment>) returns (metadata: Metadata)
      ensures metadata == GroupMetadata(group)
    {
      metadata := map[];
      for i := 0 to |group|
        invariant metadata == GroupMetadata(group[..i])
      {
        assert group[..i + 1][..i] == group[..i];
        metadata := metadata + group[i].input.metadata;
      }
      assert group[..|group|] == group;
    }

    method DeleteRange(lo: nat, hi: nat)
      requires Valid()
      modifies this`fragments
      ensures Valid() && fragments == OutsideRange(old(fragments), lo, hi)
    {
      fragments := SelectOutside(fragments, lo, hi);
      OutsideRangeRows(old(fragments), lo, hi);
    }

    /** Refuses changes with two absent sides; otherwise publishes what is pending, then writes the event. */
    method AppendEvent(input: EventInput, ghost now: Docs) returns (event: Option<Event>)
      requires Valid()
      modifies this
      ensures Valid() && (event.Some? <==> ValidChanges(input.changes))
      ensures State() == if event.Some? then Table.AppendEvent(old(State()), input, now) else old(State())
      ensures event.Some? ==> event.value == Event(lastEventId, input)
    {
      if !ValidChanges(input.changes) {
        return None;
      }
      var published := FlushFragments(0, true);
      var e := InsertEvent(input, now);
      return Some(e);
    }

    method AppendFragment(input: EventInput, key: string, flushAfter: int, ghost now: Docs) returns (ok: bool)
      requires Valid()
      modifies this
      ensures Valid() && (ok <==> ValidChanges(input.changes))
      ensures State() == if ok then Table.AppendFragment(old(State()), input, key, flushAfter, now) else old(State())
    {
      if !ValidChanges(input.changes) {
        return false;
      }
      var f := Fragment(lastFragmentId + 1, input, key, flushAfter);
      ghost var was := fragments;
      fragments, lastFragmentId := fragments + [f], f.id;
      trail := trail.(pushed := trail.pushed[f.id := now]);
      assert forall x :: x in fragments <==> x in was || x == f;
      assert forall i :: 0 <= i < |was| ==> was[i] in was;
      return true;
    }

    method InsertCheckpoint(createdAt: int, base: Option<nat>, reason: Reason, snapshot: Snapshot) returns (c: Checkpoint)
      requires Valid()
      modifies this
      ensures Valid() && State() == Table.InsertCheckpoint(old(State()), createdAt, base, reason, snapshot)
      ensures c == Checkpoint(lastCheckpointId, createdAt, base, reason, snapshot)
    {
      c := Checkpoint(lastCheckpointId + 1, createdAt, base, reason, snapshot);
      checkpoints, lastCheckpointId := checkpoints + [c], c.id;
    }

    method CreateCheckpoint(createdAt: int, base: Option<nat>, reason: Reason, snapshot: Snapshot) returns (c: Checkpoint)
      requires Valid()
      modifies this
      ensures Valid() && State() == Table.CreateCheckpoint(old(State()), createdAt, base, reason, snapshot)
      ensures c == Checkpoint(lastCheckpointId, createdAt, base, reason, snapshot)
    {
      var published := FlushFragments(0, true);
      c := InsertCheckpoint(createdAt, base, reason, snapshot);
    }

    method NewestEventId() returns (id: Option<nat>)
      ensures id == LatestEventId(State())
    {
      id := if events == [] then None else Some(events[|events| - 1].id);
    }

    method NewestCheckpointAt(default: int) returns (at: int)
      ensures at == NewestCheckpointTime(State(), default)
    {
      at := if checkpoints == [] then default else checkpoints[|checkpoints| - 1].createdAt;
    }

    /** Idempotent: a board gets its imported event and its origin checkpoint once. */
    method EnsureLegacyImportCheckpoint(snapshot: Snapshot, createdAt: int)
      requires Valid()
      modifies this
      ensures Valid() && State() == EnsureLegacyImport(old(State()), snapshot, createdAt)
    {
      if checkpoints == [] {
        var imported := InsertEvent(EventInput(SYSTEM_IMPORT, createdAt, map["legacyImport" := "true"], [],
                                               Some(snapshot.documentClock)), States(snapshot));
        var c := InsertCheckpoint(createdAt, Some(imported.id), LegacyImport, snapshot);
      }
    }

    /* ---------------------------------------------------------------- reconstruction */

    method ResolveTime(at: int) returns (id: Option<nat>)
      ensures id == LastEventAt(events, at)
    {
      var i := |events|;
      assert events[..i] == events;
      while i > 0
        invariant 0 <= i <= |events|
        invariant LastEventAt(events, at) == LastEventAt(events[..i], at)
      {
        assert events[..i][..i - 1] == events[..i - 1];
        if events[i - 1].input.createdAt <= at {
          return Some(events[i - 1].id);
        }
        i := i - 1;
      }
      return None;
    }

    method PickCheckpoint(target: Option<nat>) returns (best: Option<Checkpoint>)
      ensures best == BestCheckpoint(checkpoints, target)
    {
      best := None;
      for i := 0 to |checkpoints|
        invariant best == BestCheckpoint(checkpoints[..i], target)
      {
        assert checkpoints[..i + 1][..i] == checkpoints[..i];
        var c := checkpoints[i];
        if Eligible(c, target) && (best.None? || Outranks(c, best.value)) {
          best := Some(c);
        }
      }
      assert checkpoints[..|checkpoints|] == checkpoints;
    }

    method GetCheckpoint(id: nat) returns (c: Option<Checkpoint>)
      ensures c == FindCheckpoint(checkpoints, id)
    {
      for i := 0 to |checkpoints|
        invariant FindCheckpoint(checkpoints, id) == FindCheckpoint(checkpoints[i..], id)
      {
        assert checkpoints[i..][1..] == checkpoints[i + 1..];
        if checkpoints[i].id == id {
          return Some(checkpoints[i]);
        }
      }
      return None;
    }

    method HasEvent(id: nat) returns (found: bool)
      ensures found <==> id in EventIds(events)
    {
      for i := 0 to |events|
        invariant forall k :: 0 <= k < i ==> events[k].id != id
      {
        if events[i].id == id {
          assert events[i] in events;
          return true;
        }
      }
      return false;
    }

    method SelectBetween(after: nat, upTo: nat) returns (rows: seq<Event>)
      ensures rows == EventsBetween(events, after, upTo)
    {
      rows := [];
      for i := 0 to |events|
        invariant rows == EventsBetween(events[..i], after, upTo)
      {
        assert events[..i + 1][..i] == events[..i];
        if after < events[i].id <= upTo {
          rows := rows + [events[i]];
        }
      }
      assert events[..|events|] == events;
    }

    /** Resolves the target, picks the base checkpoint, selects the rows above it and replays them. */
    method ReconstructTarget(target: Target) returns (r: Result<Reconstruction, HistoryError>)
      ensures r == Reconstruct(State(), target)
    {
      var targetEventId: Option<nat> := None;
      var base: Option<Checkpoint> := None;
      match target {
        case AtEvent(id) =>
          var found := HasEvent(id);
          if !found { return Err(EventNotFound); }
          targetEventId := Some(id);
          base := PickCheckpoint(targetEventId);
        case AtTime(at) =>
          targetEventId := ResolveTime(at);
          base := PickCheckpoint(targetEventId);
        case AtCheckpoint(id) =>
          base := GetCheckpoint(id);
          if base.None? { return Err(CheckpointNotFound); }
          targetEventId := base.value.base;
      }
      if base.None? { return Err(NoCheckpoint); }
      var rows := [];
      if targetEventId.Some? {
        rows := SelectBetween(BaseOf(base.value), targetEventId.value);
      }
      var replayed := ReplayEvents(base.value.snapshot, rows);
      match replayed
      case Diverged(e, record) => r := Err(Divergence(e, record));
      case Rebuilt(s) => r := Ok(Reconstruction(s, targetEventId, base.value.id, IdsOf(rows)));
    }
  }
}
