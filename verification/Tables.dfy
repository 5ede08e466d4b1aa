/**
 * The history tables of one board, as values: events, pending fragments, checkpoints, and what each store
 * operation does to them. A `Trail` rides along; no operation ever reads it. It is the observer's own record
 * of every event ever appended and of what the board looked like as of each one, and is what the theorems
 * compare reconstructions against.
 */
module Tables {
  import opened Wrappers
  import opened Records
  import opened Merge
  import opened Snapshots

  datatype Fragment = Fragment(id: nat, input: EventInput, coalesceKey: string, flushAfter: int)

  datatype Reason = LegacyImport | Periodic | Explicit | PreRestore | RestoreCompleted | Other(name: string)

  datatype Checkpoint = Checkpoint(id: nat, createdAt: int, base: Option<nat>, reason: Reason, snapshot: Snapshot)

  /**
   * `log[k]` is the event with id k + 1, deleted or not; `asOf[k]` is the document map as of event k
   * (`asOf[0]` before any event); `pushed[f]` is the document map right after fragment f was written.
   */
  datatype Trail = Trail(log: seq<Event>, asOf: seq<Docs>, pushed: map<nat, Docs>)

  /** Rows are kept in id order; the `last` counters are the autoincrement sequences, which deletion never lowers. */
  datatype Tables = Tables(events: seq<Event>, fragments: seq<Fragment>, checkpoints: seq<Checkpoint>,
                           lastEventId: nat, lastFragmentId: nat, lastCheckpointId: nat, trail: Trail)

  /* ------------------------------------------------------------------ writing */

  function InsertEvent(t: Tables, input: EventInput, now: Docs): Tables {
    var e := Event(t.lastEventId + 1, input);
    t.(events := t.events + [e], lastEventId := e.id,
       trail := t.trail.(log := t.trail.log + [e], asOf := t.trail.asOf + [now]))
  }

  function InsertCheckpoint(t: Tables, createdAt: int, base: Option<nat>, reason: Reason, snapshot: Snapshot): Tables {
    var c := Checkpoint(t.lastCheckpointId + 1, createdAt, base, reason, snapshot);
    t.(checkpoints := t.checkpoints + [c], lastCheckpointId := c.id)
  }

  function AppendFragment(t: Tables, input: EventInput, key: string, flushAfter: int, now: Docs): Tables {
    var f := Fragment(t.lastFragmentId + 1, input, key, flushAfter);
    t.(fragments := t.fragments + [f], lastFragmentId := f.id,
       trail := t.trail.(pushed := t.trail.pushed[f.id := now]))
  }

  predicate SameGroup(a: Fragment, b: Fragment) {
    a.input.header == b.input.header && a.coalesceKey == b.coalesceKey
  }

  /** Length of the first coalescing group: the longest prefix of rows sharing the first row's group. */
  function GroupLength(fs: seq<Fragment>): (n: nat)
    requires fs != []
    ensures 1 <= n <= |fs|
    decreases |fs|
  {
    if |fs| == 1 || !SameGroup(fs[0], fs[1]) then 1
    else 1 + GroupLength(fs[1..])
  }

  predicate NotDue(group: seq<Fragment>, now: int) {
    exists f :: f in group && f.flushAfter > now
  }

  function GroupChanges(group: seq<Fragment>): seq<seq<Change>> {
    seq(|group|, i requires 0 <= i < |group| => group[i].input.changes)
  }

  function GroupMetadata(group: seq<Fragment>): Metadata
    decreases |group|
  {
    if group == [] then map[] else GroupMetadata(group[..|group| - 1]) + group[|group| - 1].input.metadata
  }

  /** The event a group becomes: attribution of its first row, time and clock of its last. */
  function GroupEvent(group: seq<Fragment>): EventInput
    requires group != []
  {
    var last := group[|group| - 1].input;
    EventInput(group[0].input.header, last.createdAt, GroupMetadata(group), Merged(GroupChanges(group)), last.documentClock)
  }

  function DocsAfter(t: Tables, f: Fragment): Docs {
    if f.id in t.trail.pushed then t.trail.pushed[f.id] else map[]
  }

  /** One group leaves the staging rows; an event is written unless there is nothing to say. */
  function PublishGroup(t: Tables, n: nat): Tables
    requires 1 <= n <= |t.fragments|
  {
    var group := t.fragments[..n];
    var input := GroupEvent(group);
    var t' := if input.changes != [] || input.metadata != map[]
              then InsertEvent(t, input, DocsAfter(t, group[n - 1])) else t;
    t'.(fragments := t.fragments[n..])
  }

  function Flush(t: Tables, now: int, force: bool): Tables
    decreases |t.fragments|
  {
    if t.fragments == [] then t
    else
      var n := GroupLength(t.fragments);
      if !force && NotDue(t.fragments[..n], now) then t
      else Flush(PublishGroup(t, n), now, force)
  }

  function ForceFlush(t: Tables): Tables {
    Flush(t, 0, true)
  }

  /** An immediate event is an ordering boundary: pending human edits are published first. */
  function AppendEvent(t: Tables, input: EventInput, now: Docs): Tables {
    InsertEvent(ForceFlush(t), input, now)
  }

  function CreateCheckpoint(t: Tables, createdAt: int, base: Option<nat>, reason: Reason, snapshot: Snapshot): Tables {
    InsertCheckpoint(ForceFlush(t), createdAt, base, reason, snapshot)
  }

  const SYSTEM_IMPORT := Header(None, None, "board.imported", Some("board"), None, System)

  function EnsureLegacyImport(t: Tables, snapshot: Snapshot, createdAt: int): Tables {
    if t.checkpoints != [] then t
    else
      var input := EventInput(SYSTEM_IMPORT, createdAt, map["legacyImport" := "true"], [], Some(snapshot.documentClock));
      var t1 := InsertEvent(t, input, States(snapshot));
      InsertCheckpoint(t1, createdAt, Some(t1.lastEventId), LegacyImport, snapshot)
  }

  ghost predicate OnlyAppends(before: seq<Event>, after: seq<Event>, lastId: nat) {
    before <= after && (|before| < |after| ==> after[|after| - 1].id == lastId)
  }

  lemma PublishOnlyAppends(t: Tables, n: nat)
    requires 1 <= n <= |t.fragments|
    ensures var t' := PublishGroup(t, n);
            OnlyAppends(t.events, t'.events, t'.lastEventId) && (t'.events == t.events ==> t'.lastEventId == t.lastEventId)
  {
  }

  lemma OnlyAppendsTransitive(a: seq<Event>, b: seq<Event>, lastB: nat, c: seq<Event>, lastC: nat)
    requires OnlyAppends(a, b, lastB) && OnlyAppends(b, c, lastC) && (b == c ==> lastB == lastC)
    ensures OnlyAppends(a, c, lastC)
  {
  }

  /** Events are only ever added, and if any was, the newest row is the newest event. */
  lemma {:induction false} FlushOnlyAppends(t: Tables, at: int, force: bool)
    ensures var t' := Flush(t, at, force);
            OnlyAppends(t.events, t'.events, t'.lastEventId) && (t'.events == t.events ==> t'.lastEventId == t.lastEventId)
    decreases |t.fragments|
  {
    if t.fragments != [] {
      var n := GroupLength(t.fragments);
      if force || !NotDue(t.fragments[..n], at) {
        var t1, t2 := PublishGroup(t, n), Flush(t, at, force);
        PublishOnlyAppends(t, n);
        FlushOnlyAppends(t1, at, force);
        OnlyAppendsTransitive(t.events, t1.events, t1.lastEventId, t2.events, t2.lastEventId);
      }
    }
  }

  /* ------------------------------------------------------------------ reading */

  datatype Target = AtEvent(eventId: nat) | AtCheckpoint(checkpointId: nat) | AtTime(timestamp: int)

  datatype HistoryError = EventNotFound | CheckpointNotFound | NoCheckpoint | Divergence(eventId: nat, recordId: Id)

  datatype Reconstruction = Reconstruction(snapshot: Snapshot, targetEventId: Option<nat>, baseCheckpointId: nat,
                                           appliedEventIds: seq<nat>)

  function EventIds(es: seq<Event>): set<nat> {
    set e | e in es :: e.id
  }

  /** MAX(id): the rows are in id order. */
  function LatestEventId(t: Tables): Option<nat> {
    if t.events == [] then None else Some(t.events[|t.events| - 1].id)
  }

  function NewestCheckpointTime(t: Tables, default: int): int {
    if t.checkpoints == [] then default else t.checkpoints[|t.checkpoints| - 1].createdAt
  }

  /** The last row, in id order, that was written no later than `at`. */
  function LastEventAt(es: seq<Event>, at: int): Option<nat>
    decreases |es|
  {
    if es == [] then None
    else if es[|es| - 1].input.createdAt <= at then Some(es[|es| - 1].id)
    else LastEventAt(es[..|es| - 1], at)
  }

  function FindCheckpoint(cs: seq<Checkpoint>, id: nat): Option<Checkpoint>
    decreases |cs|
  {
    if cs == [] then None else if cs[0].id == id then Some(cs[0]) else FindCheckpoint(cs[1..], id)
  }

  /** COALESCE(base_event_id, -1). */
  function Rank(c: Checkpoint): int {
    if c.base.Some? then c.base.value else -1
  }

  /** With no target event only a checkpoint with no base qualifies; otherwise any based at or below the target. */
  predicate Eligible(c: Checkpoint, target: Option<nat>) {
    c.base.None? || (target.Some? && c.base.value <= target.value)
  }

  /** ORDER BY COALESCE(base_event_id, -1) DESC, id DESC. */
  predicate Outranks(a: Checkpoint, b: Checkpoint) {
    Rank(a) > Rank(b) || (Rank(a) == Rank(b) && a.id > b.id)
  }

  function BestCheckpoint(cs: seq<Checkpoint>, target: Option<nat>): Option<Checkpoint>
    decreases |cs|
  {
    if cs == [] then None
    else
      var c := cs[|cs| - 1];
      var rest := BestCheckpoint(cs[..|cs| - 1], target);
      if Eligible(c, target) && (rest.None? || Outranks(c, rest.value)) then Some(c) else rest
  }

  function EventsBetween(es: seq<Event>, after: nat, upTo: nat): seq<Event>
    decreases |es|
  {
    if es == [] then []
    else
      var rest := EventsBetween(es[..|es| - 1], after, upTo);
      var e := es[|es| - 1];
      if after < e.id <= upTo then rest + [e] else rest
  }

  function IdsOf(es: seq<Event>): seq<nat> {
    seq(|es|, i requires 0 <= i < |es| => es[i].id)
  }

  function BaseOf(c: Checkpoint): nat {
    if c.base.Some? then c.base.value else 0
  }

  function Rebuild(t: Tables, target: Option<nat>, c: Checkpoint): Result<Reconstruction, HistoryError> {
    var es := if target.None? then [] else EventsBetween(t.events, BaseOf(c), target.value);
    match ApplyHistoryEvents(c.snapshot, es)
    case Diverged(e, r) => Err(Divergence(e, r))
    case Rebuilt(s) => Ok(Reconstruction(s, target, c.id, IdsOf(es)))
  }

  function ReconstructUpTo(t: Tables, target: Option<nat>): Result<Reconstruction, HistoryError> {
    match BestCheckpoint(t.checkpoints, target)
    case None => Err(NoCheckpoint)
    case Some(c) => Rebuild(t, target, c)
  }

  function Reconstruct(t: Tables, target: Target): Result<Reconstruction, HistoryError> {
    match target
    case AtEvent(id) => if id in EventIds(t.events) then ReconstructUpTo(t, Some(id)) else Err(EventNotFound)
    case AtTime(at) => ReconstructUpTo(t, LastEventAt(t.events, at))
    case AtCheckpoint(id) =>
      match FindCheckpoint(t.checkpoints, id)
      case None => Err(CheckpointNotFound)
      case Some(c) => Rebuild(t, c.base, c)
  }

  /* ----------------------------------------------------- facts about reading */

  ghost predicate AscendingEvents(es: seq<Event>) {
    forall i, j :: 0 <= i < j < |es| ==> es[i].id < es[j].id
  }

  ghost predicate AscendingFragments(fs: seq<Fragment>) {
    forall i, j :: 0 <= i < j < |fs| ==> fs[i].id < fs[j].id
  }

  ghost predicate AscendingCheckpoints(cs: seq<Checkpoint>) {
    forall i, j :: 0 <= i < j < |cs| ==> cs[i].id < cs[j].id
  }

  lemma SplitEvents(es: seq<Event>)
    requires AscendingEvents(es) && es != []
    ensures var last, front := es[|es| - 1], es[..|es| - 1];
            && AscendingEvents(front)
            && (forall e :: e in es <==> e == last || e in front)
            && (forall e :: e in front ==> e.id < last.id)
  {
  }

  lemma SnocEvents(es: seq<Event>, e: Event)
    requires AscendingEvents(es) && forall x :: x in es ==> x.id < e.id
    ensures AscendingEvents(es + [e]) && forall x :: x in es + [e] <==> x in es || x == e
  {
    forall i, j | 0 <= i < j < |es + [e]|
      ensures (es + [e])[i].id < (es + [e])[j].id
    {
      assert es[i] in es;
    }
  }

  lemma SplitCheckpoints(cs: seq<Checkpoint>)
    requires AscendingCheckpoints(cs) && cs != []
    ensures var last, front := cs[|cs| - 1], cs[..|cs| - 1];
            && AscendingCheckpoints(front)
            && (forall c :: c in cs <==> c == last || c in front)
            && (forall c :: c in front ==> c.id < last.id)
  {
  }

  lemma SnocCheckpoints(cs: seq<Checkpoint>, c: Checkpoint)
    requires AscendingCheckpoints(cs) && forall x :: x in cs ==> x.id < c.id
    ensures AscendingCheckpoints(cs + [c]) && forall x :: x in cs + [c] <==> x in cs || x == c
  {
    forall i, j | 0 <= i < j < |cs + [c]|
      ensures (cs + [c])[i].id < (cs + [c])[j].id
    {
      assert cs[i] in cs;
    }
  }

  /** `c` is the row the ORDER BY puts first among the eligible ones. */
  ghost predicate IsBest(c: Checkpoint, cs: seq<Checkpoint>, target: Option<nat>) {
    c in cs && Eligible(c, target) && forall d :: d in cs && Eligible(d, target) ==> d == c || Outranks(c, d)
  }

  lemma {:induction false} BestIsBest(cs: seq<Checkpoint>, target: Option<nat>)
    requires AscendingCheckpoints(cs)
    ensures match BestCheckpoint(cs, target)
            case Some(c) => IsBest(c, cs, target)
            case None => forall c :: c in cs ==> !Eligible(c, target)
    decreases |cs|
  {
    if cs != [] {
      var c, front := cs[|cs| - 1], cs[..|cs| - 1];
      SplitCheckpoints(cs);
      BestIsBest(front, target);
    }
  }

  /** The choice is the only one the ordering allows, so it can be recognised in any subset of the rows. */
  lemma BestIsUnique(c: Checkpoint, cs: seq<Checkpoint>, target: Option<nat>)
    requires AscendingCheckpoints(cs) && IsBest(c, cs, target)
    ensures BestCheckpoint(cs, target) == Some(c)
  {
    BestIsBest(cs, target);
  }

  lemma {:induction false} BetweenMembers(es: seq<Event>, after: nat, upTo: nat)
    requires AscendingEvents(es)
    ensures forall e :: e in EventsBetween(es, after, upTo) <==> e in es && after < e.id <= upTo
    ensures AscendingEvents(EventsBetween(es, after, upTo))
    decreases |es|
  {
    if es != [] {
      var e, front := es[|es| - 1], es[..|es| - 1];
      SplitEvents(es);
      BetweenMembers(front, after, upTo);
      SnocEvents(EventsBetween(front, after, upTo), e);
    }
  }

  lemma HasMember(es: seq<Event>)
    requires es != []
    ensures exists e :: e in es
  {
    assert es[0] in es;
  }

  /** Two ascending lists with the same members are the same list. */
  lemma {:induction false} AscendingSameMembers(xs: seq<Event>, ys: seq<Event>)
    requires AscendingEvents(xs) && AscendingEvents(ys)
    requires forall e :: e in xs <==> e in ys
    ensures xs == ys
    decreases |xs|
  {
    if xs == [] {
      if ys != [] { HasMember(ys); }
    } else {
      assert xs[0] in ys && (ys == [] || ys[0] in xs);
      assert xs[0] == ys[0];
      var x := xs[0];
      forall e
        ensures e in xs[1..] <==> e in ys[1..]
      {
        TailMembers(xs, e);
        TailMembers(ys, e);
      }
      AscendingSameMembers(xs[1..], ys[1..]);
      assert xs == [x] + xs[1..] && ys == [x] + ys[1..];
    }
  }

  lemma TailMembers(xs: seq<Event>, e: Event)
    requires AscendingEvents(xs) && xs != []
    ensures e in xs[1..] <==> e in xs && e != xs[0]
  {
    if e in xs && e != xs[0] {
      var k :| 0 <= k < |xs| && xs[k] == e;
      assert xs[1..][k - 1] == e;
    }
  }

  lemma {:induction false} FindById(cs: seq<Checkpoint>, c: Checkpoint)
    requires AscendingCheckpoints(cs) && c in cs
    ensures FindCheckpoint(cs, c.id) == Some(c)
    decreases |cs|
  {
    if cs[0] != c {
      var k :| 0 <= k < |cs| && cs[k] == c;
      assert cs[1..][k - 1] == c;
      FindById(cs[1..], c);
    }
  }
}
