/**
 * Board-history compaction: which checkpoints the retention policy keeps, which gaps of events between
 * them are deleted, and why deleting them cannot change any restore point that survives.
 */
module Compaction {
  import opened Wrappers
  import opened Snapshots
  import opened Tables

  const DAY := 86_400_000

  /* ------------------------------------------------------------ weekly buckets */

  /** The two things isoWeek asks of the UTC calendar, as functions of day numbers since 1 January 1970. */
  datatype Calendar = Calendar(yearOf: int -> int, fourthOfJanuary: int -> int)

  datatype Week = Week(year: int, number: int)

  function DayNumber(timestamp: int): int {
    timestamp / DAY
  }

  /** Day 0 was a Thursday, so getUTCDay (Sunday 0) is (day + 4) % 7; the code turns it into Monday 0. */
  function DaysSinceMonday(day: int): int {
    ((day + 4) % 7 + 6) % 7
  }

  /** The label is the year and number of the week's Thursday; Math.round(x) is floor(x + 1/2). */
  function IsoWeek(cal: Calendar, timestamp: int): Week {
    var day := DayNumber(timestamp);
    var thursday := day - DaysSinceMonday(day) + 3;
    var year := cal.yearOf(thursday);
    var days := thursday - cal.fourthOfJanuary(year);
    Week(year, 1 + (2 * (days - 3) + 7) / 14)
  }

  /** Monday-to-Sunday UTC weeks, numbered from the one containing 1 January 1970. */
  function WeekIndex(timestamp: int): int {
    (DayNumber(timestamp) + 3) / 7
  }

  /**
   * Bucketing is exact on any calendar at all: two timestamps get the same label exactly when they fall in
   * the same Monday-to-Sunday week, even though the printed number itself can be off by one.
   */
  lemma IsoWeekIsExact(cal: Calendar, a: int, b: int)
    ensures IsoWeek(cal, a) == IsoWeek(cal, b) <==> WeekIndex(a) == WeekIndex(b)
  {
    ThursdayOfWeek(DayNumber(a));
    ThursdayOfWeek(DayNumber(b));
    var wa, wb := WeekIndex(a), WeekIndex(b);
    if IsoWeek(cal, a) == IsoWeek(cal, b) {
      var jan4 := cal.fourthOfJanuary(cal.yearOf(7 * wa));
      assert (2 * (7 * wa - jan4 - 3) + 7) / 14 == (2 * (7 * wb - jan4 - 3) + 7) / 14;
      WeeksApart(2 * (0 - jan4 - 3) + 7, wa);
      WeeksApart(2 * (0 - jan4 - 3) + 7, wb);
    }
  }

  lemma ThursdayOfWeek(day: int)
    ensures day - DaysSinceMonday(day) + 3 == 7 * ((day + 3) / 7)
  {
  }

  lemma WeeksApart(x: int, w: int)
    ensures (x + 14 * w) / 14 == x / 14 + w
  {
  }

  /* -------------------------------------------------------- retained checkpoints */

  predicate Automatic(c: Checkpoint) {
    !c.reason.Explicit? && !c.reason.PreRestore?
  }

  predicate OldAutomatic(c: Checkpoint, cutoff: int) {
    Automatic(c) && c.createdAt < cutoff
  }

  function FirstWithoutBase(cs: seq<Checkpoint>): Option<Checkpoint>
    decreases |cs|
  {
    if cs == [] then None else if cs[0].base.None? then Some(cs[0]) else FirstWithoutBase(cs[1..])
  }

  predicate NewestOfItsWeek(cal: Calendar, cs: seq<Checkpoint>, c: Checkpoint, cutoff: int) {
    && OldAutomatic(c, cutoff)
    && forall d :: d in cs && OldAutomatic(d, cutoff) && IsoWeek(cal, d.createdAt) == IsoWeek(cal, c.createdAt) ==> d.id <= c.id
  }

  /** The origin, the newest, the first without a base, everything a person asked for, everything recent, one a week. */
  predicate Retained(cal: Calendar, cs: seq<Checkpoint>, c: Checkpoint, cutoff: int) {
    || (cs != [] && (c == cs[0] || c == cs[|cs| - 1]))
    || FirstWithoutBase(cs) == Some(c)
    || !Automatic(c)
    || c.createdAt >= cutoff
    || NewestOfItsWeek(cal, cs, c, cutoff)
  }

  function RetainedRows(cal: Calendar, all: seq<Checkpoint>, cs: seq<Checkpoint>, cutoff: int): seq<Checkpoint>
    decreases |cs|
  {
    if cs == [] then []
    else
      var front := RetainedRows(cal, all, cs[..|cs| - 1], cutoff);
      var c := cs[|cs| - 1];
      if Retained(cal, all, c, cutoff) then front + [c] else front
  }

  /* -------------------------------------------------------------- deletable gaps */

  /** The events with id in (lower, upper]. */
  datatype Gap = Gap(lower: nat, upper: nat)

  function GapAfter(rows: seq<Checkpoint>, i: nat): Gap
    requires i + 1 < |rows|
  {
    Gap(BaseOf(rows[i]), BaseOf(rows[i + 1]))
  }

  predicate Deletable(g: Gap, es: seq<Event>) {
    g.lower < g.upper && EventsBetween(es, g.lower, g.upper) != []
  }

  /** Gaps between consecutive retained checkpoints from the i-th on, up to the full-resolution window. */
  function Gaps(rows: seq<Checkpoint>, es: seq<Event>, cutoff: int, i: nat): seq<Gap>
    decreases |rows| - i
  {
    if i + 1 >= |rows| || rows[i + 1].createdAt >= cutoff then []
    else
      var g := GapAfter(rows, i);
      (if Deletable(g, es) then [g] else []) + Gaps(rows, es, cutoff, i + 1)
  }

  function DoomedIds(gaps: seq<Gap>, es: seq<Event>): seq<nat>
    decreases |gaps|
  {
    if gaps == [] then []
    else IdsOf(EventsBetween(es, gaps[0].lower, gaps[0].upper)) + DoomedIds(gaps[1..], es)
  }

  predicate StrictlyInside(gaps: seq<Gap>, base: nat) {
    exists g :: g in gaps && g.lower < base < g.upper
  }

  /** A checkpoint goes only with the gap around it. */
  predicate Disposable(cal: Calendar, all: seq<Checkpoint>, gaps: seq<Gap>, cutoff: int, c: Checkpoint) {
    !Retained(cal, all, c, cutoff) && StrictlyInside(gaps, BaseOf(c))
  }

  function DisposableRows(cal: Calendar, all: seq<Checkpoint>, gaps: seq<Gap>, cutoff: int, cs: seq<Checkpoint>): seq<Checkpoint>
    decreases |cs|
  {
    if cs == [] then []
    else
      var front := DisposableRows(cal, all, gaps, cutoff, cs[..|cs| - 1]);
      var c := cs[|cs| - 1];
      if Disposable(cal, all, gaps, cutoff, c) then front + [c] else front
  }

  function CheckpointIds(cs: seq<Checkpoint>): seq<nat> {
    seq(|cs|, i requires 0 <= i < |cs| => cs[i].id)
  }

  datatype Plan = Plan(retainedCheckpointIds: seq<nat>, deletedCheckpointIds: seq<nat>,
                       deletableEventIds: seq<nat>, boundaryEventId: nat)

  datatype Settings = Settings(now: int, detailedDays: int, checkpointDays: int)

  function DetailedCutoff(s: Settings): int { s.now - s.detailedDays * DAY }

  function CheckpointCutoff(s: Settings): int { s.now - s.checkpointDays * DAY }

  function PlannedRows(cal: Calendar, t: Tables, s: Settings): seq<Checkpoint> {
    RetainedRows(cal, t.checkpoints, t.checkpoints, CheckpointCutoff(s))
  }

  function PlannedGaps(cal: Calendar, t: Tables, s: Settings): seq<Gap> {
    Gaps(PlannedRows(cal, t, s), t.events, DetailedCutoff(s), 0)
  }

  function PlanOf(cal: Calendar, t: Tables, s: Settings): Plan {
    var gaps := PlannedGaps(cal, t, s);
    var doomed := DoomedIds(gaps, t.events);
    Plan(CheckpointIds(PlannedRows(cal, t, s)),
         CheckpointIds(DisposableRows(cal, t.checkpoints, gaps, CheckpointCutoff(s), t.checkpoints)),
         doomed,
         if doomed == [] then 0 else doomed[|doomed| - 1])
  }

  /* ------------------------------------------------------------------- deletion */

  function WithoutEvents(es: seq<Event>, ids: seq<nat>): seq<Event>
    decreases |es|
  {
    if es == [] then []
    else
      var front := WithoutEvents(es[..|es| - 1], ids);
      var e := es[|es| - 1];
      if e.id in ids then front else front + [e]
  }

  function WithoutCheckpoints(cs: seq<Checkpoint>, ids: seq<nat>): seq<Checkpoint>
    decreases |cs|
  {
    if cs == [] then []
    else
      var front := WithoutCheckpoints(cs[..|cs| - 1], ids);
      var c := cs[|cs| - 1];
      if c.id in ids then front else front + [c]
  }

  function Delete(t: Tables, plan: Plan): Tables {
    t.(events := WithoutEvents(t.events, plan.deletableEventIds),
       checkpoints := WithoutCheckpoints(t.checkpoints, plan.deletedCheckpointIds))
  }

  /* ------------------------------------------------------------ membership facts */

  lemma {:induction false} WithoutEventsMembers(es: seq<Event>, ids: seq<nat>)
    requires AscendingEvents(es)
    ensures forall e :: e in WithoutEvents(es, ids) <==> e in es && e.id !in ids
    ensures AscendingEvents(WithoutEvents(es, ids))
    ensures |WithoutEvents(es, ids)| <= |es|
    decreases |es|
  {
    if es != [] {
      var e, front := es[|es| - 1], es[..|es| - 1];
      SplitEvents(es);
      WithoutEventsMembers(front, ids);
      SnocEvents(WithoutEvents(front, ids), e);
    }
  }

  lemma {:induction false} WithoutCheckpointsMembers(cs: seq<Checkpoint>, ids: seq<nat>)
    requires AscendingCheckpoints(cs)
    ensures forall c :: c in WithoutCheckpoints(cs, ids) <==> c in cs && c.id !in ids
    ensures AscendingCheckpoints(WithoutCheckpoints(cs, ids))
    decreases |cs|
  {
    if cs != [] {
      var c, front := cs[|cs| - 1], cs[..|cs| - 1];
      SplitCheckpoints(cs);
      WithoutCheckpointsMembers(front, ids);
      SnocCheckpoints(WithoutCheckpoints(front, ids), c);
    }
  }

  lemma {:induction false} RetainedMembers(cal: Calendar, all: seq<Checkpoint>, cs: seq<Checkpoint>, cutoff: int)
    requires AscendingCheckpoints(cs)
    ensures forall c :: c in RetainedRows(cal, all, cs, cutoff) <==> c in cs && Retained(cal, all, c, cutoff)
    ensures AscendingCheckpoints(RetainedRows(cal, all, cs, cutoff))
    decreases |cs|
  {
    if cs != [] {
      var c, front := cs[|cs| - 1], cs[..|cs| - 1];
      SplitCheckpoints(cs);
      RetainedMembers(cal, all, front, cutoff);
      SnocCheckpoints(RetainedRows(cal, all, front, cutoff), c);
    }
  }

  lemma {:induction false} DisposableMembers(cal: Calendar, all: seq<Checkpoint>, gaps: seq<Gap>, cutoff: int, cs: seq<Checkpoint>)
    ensures forall c :: c in DisposableRows(cal, all, gaps, cutoff, cs) <==> c in cs && Disposable(cal, all, gaps, cutoff, c)
    decreases |cs|
  {
    if cs != [] {
      var c, front := cs[|cs| - 1], cs[..|cs| - 1];
      DisposableMembers(cal, all, gaps, cutoff, front);
      assert forall x :: x in cs <==> x == c || x in front;
    }
  }

  lemma CheckpointIdMembers(cs: seq<Checkpoint>, all: seq<Checkpoint>, c: Checkpoint)
    requires AscendingCheckpoints(all) && c in all && forall d :: d in cs ==> d in all
    ensures c.id in CheckpointIds(cs) <==> c in cs
  {
    if c in cs {
      var k :| 0 <= k < |cs| && cs[k] == c;
      assert CheckpointIds(cs)[k] == c.id;
    }
    if c.id in CheckpointIds(cs) {
      var k :| 0 <= k < |cs| && CheckpointIds(cs)[k] == c.id;
      assert cs[k] in all;
    }
  }

  /** A gap is bounded above by the base of a retained row. */
  lemma {:induction false} GapUpperIsABase(rows: seq<Checkpoint>, es: seq<Event>, cutoff: int, i: nat, g: Gap)
    requires g in Gaps(rows, es, cutoff, i)
    ensures Deletable(g, es) && exists k :: i < k < |rows| && rows[k].base == Some(g.upper) && rows[k].createdAt < cutoff
    decreases |rows| - i
  {
    if g == GapAfter(rows, i) && Deletable(g, es) {
      assert rows[i + 1].base == Some(g.upper);
    } else {
      GapUpperIsABase(rows, es, cutoff, i + 1, g);
    }
  }

  ghost predicate InSomeGap(gaps: seq<Gap>, id: nat) {
    exists g :: g in gaps && g.lower < id <= g.upper
  }

  lemma IdsOfMembers(es: seq<Event>, id: nat)
    ensures id in IdsOf(es) <==> id in EventIds(es)
  {
    if id in EventIds(es) {
      var e :| e in es && e.id == id;
      var k :| 0 <= k < |es| && es[k] == e;
      assert IdsOf(es)[k] == id;
    }
  }

  lemma {:induction false} DoomedMembers(gaps: seq<Gap>, es: seq<Event>, id: nat)
    requires AscendingEvents(es)
    ensures id in DoomedIds(gaps, es) <==> id in EventIds(es) && InSomeGap(gaps, id)
    decreases |gaps|
  {
    if gaps != [] {
      var between := EventsBetween(es, gaps[0].lower, gaps[0].upper);
      BetweenMembers(es, gaps[0].lower, gaps[0].upper);
      IdsOfMembers(between, id);
      DoomedMembers(gaps[1..], es, id);
      assert forall g :: g in gaps <==> g == gaps[0] || g in gaps[1..];
    }
  }

  /** What a plan does, row by row: which events and which checkpoints are still there afterwards. */
  lemma Survivors(cal: Calendar, t: Tables, s: Settings)
    requires AscendingEvents(t.events) && AscendingCheckpoints(t.checkpoints)
    ensures var t' := Delete(t, PlanOf(cal, t, s)); var gaps := PlannedGaps(cal, t, s);
            && AscendingEvents(t'.events) && AscendingCheckpoints(t'.checkpoints)
            && (forall e :: e in t'.events <==> e in t.events && !InSomeGap(gaps, e.id))
            && (forall c :: c in t'.checkpoints <==> c in t.checkpoints && !Disposable(cal, t.checkpoints, gaps, CheckpointCutoff(s), c))
  {
    var plan, gaps := PlanOf(cal, t, s), PlannedGaps(cal, t, s);
    var disposable := DisposableRows(cal, t.checkpoints, gaps, CheckpointCutoff(s), t.checkpoints);
    WithoutEventsMembers(t.events, plan.deletableEventIds);
    WithoutCheckpointsMembers(t.checkpoints, plan.deletedCheckpointIds);
    forall e | e in t.events
      ensures e.id in plan.deletableEventIds <==> InSomeGap(gaps, e.id)
    {
      DoomedMembers(gaps, t.events, e.id);
    }
    DisposableMembers(cal, t.checkpoints, gaps, CheckpointCutoff(s), t.checkpoints);
    forall c | c in t.checkpoints
      ensures c.id in plan.deletedCheckpointIds <==> c in disposable
    {
      CheckpointIdMembers(disposable, t.checkpoints, c);
    }
  }

  /** Every gap is closed by a checkpoint that survives. */
  lemma GapClosedBySurvivor(cal: Calendar, t: Tables, s: Settings, g: Gap) returns (c: Checkpoint)
    requires AscendingEvents(t.events) && AscendingCheckpoints(t.checkpoints)
    requires g in PlannedGaps(cal, t, s)
    ensures c in t.checkpoints && c.base == Some(g.upper) && Retained(cal, t.checkpoints, c, CheckpointCutoff(s))
    ensures c in Delete(t, PlanOf(cal, t, s)).checkpoints
    ensures c.createdAt < DetailedCutoff(s) && g.lower < g.upper
  {
    var rows := PlannedRows(cal, t, s);
    GapUpperIsABase(rows, t.events, DetailedCutoff(s), 0, g);
    RetainedMembers(cal, t.checkpoints, t.checkpoints, CheckpointCutoff(s));
    Survivors(cal, t, s);
    var k :| 0 < k < |rows| && rows[k].base == Some(g.upper) && rows[k].createdAt < DetailedCutoff(s);
    c := rows[k];
  }

  /* ------------------------------------------------- survivors rebuild identically */

  /** A target that is in no gap keeps its base checkpoint, for any set of checkpoints at all. */
  lemma BaseSurvives(cal: Calendar, t: Tables, s: Settings, target: nat)
    requires AscendingEvents(t.events) && AscendingCheckpoints(t.checkpoints)
    requires !InSomeGap(PlannedGaps(cal, t, s), target)
    ensures BestCheckpoint(Delete(t, PlanOf(cal, t, s)).checkpoints, Some(target)) == BestCheckpoint(t.checkpoints, Some(target))
  {
    var t' := Delete(t, PlanOf(cal, t, s));
    var gaps := PlannedGaps(cal, t, s);
    Survivors(cal, t, s);
    BestIsBest(t.checkpoints, Some(target));
    BestIsBest(t'.checkpoints, Some(target));
    match BestCheckpoint(t.checkpoints, Some(target))
    case None =>
    case Some(c) =>
      if c !in t'.checkpoints {
        var g :| g in gaps && g.lower < BaseOf(c) < g.upper;
        var u := GapClosedBySurvivor(cal, t, s, g);
        assert false;
      }
      BestIsUnique(c, t'.checkpoints, Some(target));
  }

  /** ... and every event replayed on top of it. */
  lemma ReplayedEventsSurvive(cal: Calendar, t: Tables, s: Settings, target: nat, c: Checkpoint)
    requires AscendingEvents(t.events) && AscendingCheckpoints(t.checkpoints)
    requires !InSomeGap(PlannedGaps(cal, t, s), target)
    requires BestCheckpoint(t.checkpoints, Some(target)) == Some(c)
    ensures EventsBetween(Delete(t, PlanOf(cal, t, s)).events, BaseOf(c), target) == EventsBetween(t.events, BaseOf(c), target)
  {
    var t' := Delete(t, PlanOf(cal, t, s));
    var gaps := PlannedGaps(cal, t, s);
    Survivors(cal, t, s);
    BestIsBest(t.checkpoints, Some(target));
    BetweenMembers(t.events, BaseOf(c), target);
    BetweenMembers(t'.events, BaseOf(c), target);
    forall e | e in t.events && BaseOf(c) < e.id <= target
      ensures !InSomeGap(gaps, e.id)
    {
      if InSomeGap(gaps, e.id) {
        var g :| g in gaps && g.lower < e.id <= g.upper;
        var u := GapClosedBySurvivor(cal, t, s, g);
        assert false;
      }
    }
    AscendingSameMembers(EventsBetween(t.events, BaseOf(c), target), EventsBetween(t'.events, BaseOf(c), target));
  }

  /**
   * The safety property of compaction, from the plan alone: for any events and any checkpoints, in any
   * order of bases, every event that survives rebuilds from the same checkpoint through the same events
   * to the same snapshot (or fails in the same way) as before.
   */
  lemma SurvivingEventsRebuildIdentically(cal: Calendar, t: Tables, s: Settings, id: nat)
    requires AscendingEvents(t.events) && AscendingCheckpoints(t.checkpoints)
    requires id in EventIds(Delete(t, PlanOf(cal, t, s)).events)
    ensures Reconstruct(Delete(t, PlanOf(cal, t, s)), AtEvent(id)) == Reconstruct(t, AtEvent(id))
  {
    Survivors(cal, t, s);
    BaseSurvives(cal, t, s, id);
    var best := BestCheckpoint(t.checkpoints, Some(id));
    if best.Some? {
      ReplayedEventsSurvive(cal, t, s, id, best.value);
    }
  }

  /** The same for every checkpoint that survives; all retained ones do. */
  lemma SurvivingCheckpointsRebuildIdentically(cal: Calendar, t: Tables, s: Settings, c: Checkpoint)
    requires AscendingEvents(t.events) && AscendingCheckpoints(t.checkpoints)
    requires c in Delete(t, PlanOf(cal, t, s)).checkpoints
    ensures Reconstruct(Delete(t, PlanOf(cal, t, s)), AtCheckpoint(c.id)) == Reconstruct(t, AtCheckpoint(c.id))
  {
    var t' := Delete(t, PlanOf(cal, t, s));
    Survivors(cal, t, s);
    FindById(t.checkpoints, c);
    FindById(t'.checkpoints, c);
    if c.base.Some? {
      var b := c.base.value;
      BetweenMembers(t.events, b, b);
      BetweenMembers(t'.events, b, b);
      AscendingSameMembers(EventsBetween(t.events, b, b), EventsBetween(t'.events, b, b));
    }
  }
}
