/** The compaction pass as a whole: it converges, and on boards whose bases follow their ids it cannot fail. */
module CompactionPass {
  import opened Wrappers
  import opened Snapshots
  import opened Tables
  import opened Compaction

  /* ----------------------------------------------------------- policy guarantees */

  lemma {:induction false} NewestSatisfying(cs: seq<Checkpoint>, p: Checkpoint -> bool, c: Checkpoint) returns (d: Checkpoint)
    requires c in cs && p(c)
    ensures d in cs && p(d)
    ensures forall x :: x in cs && p(x) ==> x.id <= d.id
    decreases |cs|
  {
    var last, front := cs[|cs| - 1], cs[..|cs| - 1];
    assert forall x :: x in cs <==> x == last || x in front;
    if x :| x in front && p(x) {
      var best := NewestSatisfying(front, p, x);
      d := if p(last) && last.id >= best.id then last else best;
    } else {
      d := last;
    }
  }

  lemma NewestOfWeekExists(cal: Calendar, cs: seq<Checkpoint>, c: Checkpoint, cutoff: int) returns (d: Checkpoint)
    requires c in cs && OldAutomatic(c, cutoff)
    ensures d in cs && NewestOfItsWeek(cal, cs, d, cutoff) && IsoWeek(cal, d.createdAt) == IsoWeek(cal, c.createdAt)
    ensures c.id <= d.id
  {
    var w := IsoWeek(cal, c.createdAt);
    d := NewestSatisfying(cs, x => OldAutomatic(x, cutoff) && IsoWeek(cal, x.createdAt) == w, c);
  }

  /**
   * Weekly thinning keeps, for every old automatic checkpoint, the newest automatic one of the same
   * Monday-to-Sunday UTC week.
   */
  lemma WeeklyThinningIsExact(cal: Calendar, cs: seq<Checkpoint>, c: Checkpoint, cutoff: int) returns (d: Checkpoint)
    requires c in cs && OldAutomatic(c, cutoff)
    ensures d in cs && Retained(cal, cs, d, cutoff) && OldAutomatic(d, cutoff)
    ensures WeekIndex(d.createdAt) == WeekIndex(c.createdAt)
    ensures forall x :: x in cs && OldAutomatic(x, cutoff) && WeekIndex(x.createdAt) == WeekIndex(c.createdAt) ==> x.id <= d.id
  {
    d := NewestOfWeekExists(cal, cs, c, cutoff);
    IsoWeekIsExact(cal, d.createdAt, c.createdAt);
    forall x | x in cs && OldAutomatic(x, cutoff) && WeekIndex(x.createdAt) == WeekIndex(c.createdAt)
      ensures x.id <= d.id
    {
      IsoWeekIsExact(cal, x.createdAt, d.createdAt);
    }
  }

  /**
   * As long as no event is stamped later than a checkpoint based at or above it, nothing from the
   * full-resolution window is ever deleted, and no checkpoint a person made or that is recent enough goes.
   */
  lemma RecentHistoryIsUntouched(cal: Calendar, t: Tables, s: Settings)
    requires AscendingEvents(t.events) && AscendingCheckpoints(t.checkpoints)
    requires forall e, c :: e in t.events && c in t.checkpoints && c.base.Some? && e.id <= c.base.value ==> e.input.createdAt <= c.createdAt
    ensures var t' := Delete(t, PlanOf(cal, t, s));
            && (forall e :: e in t.events && e.input.createdAt >= DetailedCutoff(s) ==> e in t'.events)
            && (forall c :: c in t.checkpoints && (!Automatic(c) || c.createdAt >= CheckpointCutoff(s)) ==> c in t'.checkpoints)
  {
    Survivors(cal, t, s);
    var gaps := PlannedGaps(cal, t, s);
    forall e | e in t.events && InSomeGap(gaps, e.id)
      ensures e.input.createdAt < DetailedCutoff(s)
    {
      var g :| g in gaps && g.lower < e.id <= g.upper;
      var c := GapClosedBySurvivor(cal, t, s, g);
    }
  }

  /* ------------------------------------------------------------------ convergence */

  lemma {:induction false} FirstWithoutBaseIsLeast(cs: seq<Checkpoint>, c: Checkpoint)
    requires AscendingCheckpoints(cs)
    ensures FirstWithoutBase(cs) == Some(c) <==>
            c in cs && c.base.None? && forall d :: d in cs && d.base.None? ==> d == c || c.id < d.id
    decreases |cs|
  {
    if cs != [] {
      var head, tail := cs[0], cs[1..];
      FirstWithoutBaseIsLeast(tail, c);
      assert forall x :: x in cs <==> x == head || x in tail;
      assert forall x :: x in tail ==> head.id < x.id;
    }
  }

  lemma EndsByMembers(cs: seq<Checkpoint>, ds: seq<Checkpoint>)
    requires AscendingCheckpoints(cs) && AscendingCheckpoints(ds) && cs != []
    requires forall d :: d in ds ==> d in cs
    requires cs[0] in ds && cs[|cs| - 1] in ds
    ensures ds != [] && ds[0] == cs[0] && ds[|ds| - 1] == cs[|cs| - 1]
  {
    var first :| 0 <= first < |ds| && ds[first] == cs[0];
    var last :| 0 <= last < |ds| && ds[last] == cs[|cs| - 1];
    assert ds[0] in cs && ds[|ds| - 1] in cs;
  }

  /** Deleting leaves the classification of every surviving checkpoint as it was. */
  lemma RetentionIsStable(cal: Calendar, t: Tables, s: Settings, c: Checkpoint)
    requires AscendingEvents(t.events) && AscendingCheckpoints(t.checkpoints)
    requires c in Delete(t, PlanOf(cal, t, s)).checkpoints
    ensures Retained(cal, Delete(t, PlanOf(cal, t, s)).checkpoints, c, CheckpointCutoff(s)) <==>
            Retained(cal, t.checkpoints, c, CheckpointCutoff(s))
  {
    Survivors(cal, t, s);
    EndsAreStable(cal, t, s);
    NullBaseIsStable(cal, t, s, c);
    NewestIsStable(cal, t, s, c);
  }

  lemma EndsAreStable(cal: Calendar, t: Tables, s: Settings)
    requires AscendingEvents(t.events) && AscendingCheckpoints(t.checkpoints) && t.checkpoints != []
    ensures var cs, ds := t.checkpoints, Delete(t, PlanOf(cal, t, s)).checkpoints;
            ds != [] && ds[0] == cs[0] && ds[|ds| - 1] == cs[|cs| - 1]
  {
    Survivors(cal, t, s);
    EndsByMembers(t.checkpoints, Delete(t, PlanOf(cal, t, s)).checkpoints);
  }

  lemma NullBaseIsStable(cal: Calendar, t: Tables, s: Settings, c: Checkpoint)
    requires AscendingEvents(t.events) && AscendingCheckpoints(t.checkpoints)
    requires c in Delete(t, PlanOf(cal, t, s)).checkpoints
    ensures FirstWithoutBase(Delete(t, PlanOf(cal, t, s)).checkpoints) == Some(c) <==> FirstWithoutBase(t.checkpoints) == Some(c)
  {
    Survivors(cal, t, s);
    FirstWithoutBaseIsLeast(t.checkpoints, c);
    FirstWithoutBaseIsLeast(Delete(t, PlanOf(cal, t, s)).checkpoints, c);
  }

  lemma NewestIsStable(cal: Calendar, t: Tables, s: Settings, c: Checkpoint)
    requires AscendingEvents(t.events) && AscendingCheckpoints(t.checkpoints)
    requires c in Delete(t, PlanOf(cal, t, s)).checkpoints
    ensures NewestOfItsWeek(cal, Delete(t, PlanOf(cal, t, s)).checkpoints, c, CheckpointCutoff(s)) <==>
            NewestOfItsWeek(cal, t.checkpoints, c, CheckpointCutoff(s))
  {
    var cs, ds := t.checkpoints, Delete(t, PlanOf(cal, t, s)).checkpoints;
    var cutoff := CheckpointCutoff(s);
    Survivors(cal, t, s);
    if NewestOfItsWeek(cal, ds, c, cutoff) {
      var d := NewestOfWeekExists(cal, cs, c, cutoff);
      assert Retained(cal, cs, d, cutoff);
      assert d in ds;
      SameId(cs, c, d);
    }
  }

  lemma SameId(cs: seq<Checkpoint>, c: Checkpoint, d: Checkpoint)
    requires AscendingCheckpoints(cs) && c in cs && d in cs
    ensures c.id == d.id ==> c == d
  {
  }

  lemma {:induction false} SameMembersSameRows(xs: seq<Checkpoint>, ys: seq<Checkpoint>)
    requires AscendingCheckpoints(xs) && AscendingCheckpoints(ys)
    requires forall c :: c in xs <==> c in ys
    ensures xs == ys
    decreases |xs|
  {
    if xs != [] && ys != [] {
      var i, j := |xs| - 1, |ys| - 1;
      assert xs[i] in xs && ys[j] in ys;
      assert xs[i].id <= ys[j].id && ys[j].id <= xs[i].id;
      SameId(xs, xs[i], ys[j]);
      assert xs[i] == ys[j];
      FrontMembers(xs);
      FrontMembers(ys);
      forall c
        ensures c in xs[..i] <==> c in ys[..j]
      {
        assert c in xs[..i] <==> c in xs && c != xs[i];
        assert c in ys[..j] <==> c in ys && c != ys[j];
      }
      SameMembersSameRows(xs[..i], ys[..j]);
      assert xs == xs[..i] + [xs[i]] && ys == ys[..j] + [ys[j]];
    } else if xs != [] {
      SomeRow(xs);
    } else if ys != [] {
      SomeRow(ys);
    }
  }

  lemma SomeRow(xs: seq<Checkpoint>)
    requires xs != []
    ensures exists c :: c in xs
  {
    assert xs[0] in xs;
  }

  lemma FrontMembers(xs: seq<Checkpoint>)
    requires AscendingCheckpoints(xs) && xs != []
    ensures forall c :: c in xs[..|xs| - 1] <==> c in xs && c != xs[|xs| - 1]
  {
    forall c | c in xs && c != xs[|xs| - 1]
      ensures c in xs[..|xs| - 1]
    {
      var k :| 0 <= k < |xs| && xs[k] == c;
      assert xs[..|xs| - 1][k] == c;
    }
  }

  lemma RetainedRowsAreStable(cal: Calendar, t: Tables, s: Settings)
    requires AscendingEvents(t.events) && AscendingCheckpoints(t.checkpoints)
    ensures PlannedRows(cal, Delete(t, PlanOf(cal, t, s)), s) == PlannedRows(cal, t, s)
  {
    var cs, ds := t.checkpoints, Delete(t, PlanOf(cal, t, s)).checkpoints;
    var cutoff := CheckpointCutoff(s);
    Survivors(cal, t, s);
    RetainedMembers(cal, cs, cs, cutoff);
    RetainedMembers(cal, ds, ds, cutoff);
    forall c | c in ds
      ensures Retained(cal, ds, c, cutoff) <==> Retained(cal, cs, c, cutoff)
    {
      RetentionIsStable(cal, t, s, c);
    }
    SameMembersSameRows(PlannedRows(cal, Delete(t, PlanOf(cal, t, s)), s), PlannedRows(cal, t, s));
  }

  lemma {:induction false} GapsGrowWithEvents(rows: seq<Checkpoint>, es: seq<Event>, fewer: seq<Event>, cutoff: int, i: nat, g: Gap)
    requires g in Gaps(rows, fewer, cutoff, i) && Deletable(g, es)
    ensures g in Gaps(rows, es, cutoff, i)
    decreases |rows| - i
  {
    if g != GapAfter(rows, i) || !Deletable(g, fewer) {
      GapsGrowWithEvents(rows, es, fewer, cutoff, i + 1, g);
    }
  }

  lemma SomeEventBetween(es: seq<Event>, g: Gap) returns (e: Event)
    requires AscendingEvents(es) && Deletable(g, es)
    ensures e in es && g.lower < e.id <= g.upper
  {
    BetweenMembers(es, g.lower, g.upper);
    e := EventsBetween(es, g.lower, g.upper)[0];
  }

  /** The policy has converged after one pass: planning again with the same clock finds nothing at all to delete. */
  lemma SecondPassPlansNothing(cal: Calendar, t: Tables, s: Settings)
    requires AscendingEvents(t.events) && AscendingCheckpoints(t.checkpoints)
    ensures var again := PlanOf(cal, Delete(t, PlanOf(cal, t, s)), s);
            again.deletableEventIds == [] && again.deletedCheckpointIds == []
  {
    var t' := Delete(t, PlanOf(cal, t, s));
    var rows := PlannedRows(cal, t, s);
    var gaps, left := PlannedGaps(cal, t, s), PlannedGaps(cal, t', s);
    RetainedRowsAreStable(cal, t, s);
    Survivors(cal, t, s);
    if left != [] {
      var g := left[0];
      assert g in left;
      GapUpperIsABase(rows, t'.events, DetailedCutoff(s), 0, g);
      var e := SomeEventBetween(t'.events, g);
      BetweenMembers(t.events, g.lower, g.upper);
      assert e in EventsBetween(t.events, g.lower, g.upper);
      GapsGrowWithEvents(rows, t.events, t'.events, DetailedCutoff(s), 0, g);
      assert false;
    }
    DisposableMembers(cal, t'.checkpoints, left, CheckpointCutoff(s), t'.checkpoints);
    var disposable := DisposableRows(cal, t'.checkpoints, left, CheckpointCutoff(s), t'.checkpoints);
    if disposable != [] {
      SomeRow(disposable);
    }
  }

  /* ------------------------------------------------------------------ the pass */

  function CheckpointTargets(ids: seq<nat>): seq<Target> {
    seq(|ids|, i requires 0 <= i < |ids| => AtCheckpoint(ids[i]))
  }

  function HistoricalTargets(es: seq<Event>, plan: Plan): seq<Target>
    decreases |es|
  {
    if es == [] then []
    else
      var front := HistoricalTargets(es[..|es| - 1], plan);
      var id := es[|es| - 1].id;
      if id <= plan.boundaryEventId && id !in plan.deletableEventIds then front + [AtEvent(id)] else front
  }

  /** The newest `count` rows above the boundary, newest first. */
  function RecentTargets(es: seq<Event>, boundary: nat, count: nat): seq<Target>
    decreases |es|
  {
    if es == [] || count == 0 then []
    else
      var id := es[|es| - 1].id;
      if id > boundary then [AtEvent(id)] + RecentTargets(es[..|es| - 1], boundary, count - 1)
      else RecentTargets(es[..|es| - 1], boundary, count)
  }

  const RECENT_TARGETS: nat := 100

  function VerificationTargets(es: seq<Event>, plan: Plan): seq<Target> {
    CheckpointTargets(plan.retainedCheckpointIds)
    + HistoricalTargets(es, plan)
    + RecentTargets(es, plan.boundaryEventId, RECENT_TARGETS)
  }

  predicate AllRebuild(t: Tables, targets: seq<Target>) {
    forall x :: x in targets ==> Reconstruct(t, x).Ok?
  }

  /** Comparing digests is comparing snapshots, collisions aside. */
  predicate RebuildsAlike(t: Tables, t': Tables, targets: seq<Target>) {
    forall x :: x in targets ==>
      Reconstruct(t', x).Ok? && Reconstruct(t, x).Ok? && Reconstruct(t', x).value.snapshot == Reconstruct(t, x).value.snapshot
  }

  datatype Outcome = NothingToDo | Committed | RolledBackDryRun | Failed | BoardMoved

  function PassOutcome(cal: Calendar, t: Tables, s: Settings, apply: bool): Outcome {
    var plan := PlanOf(cal, t, s);
    var targets := VerificationTargets(t.events, plan);
    var t' := Delete(t, plan);
    if plan.deletableEventIds == [] && plan.deletedCheckpointIds == [] then NothingToDo
    else if !AllRebuild(t, targets) then Failed
    else if |t.events| - |t'.events| != |plan.deletableEventIds| then Failed
    else if !RebuildsAlike(t, t', targets) then Failed
    else if !apply then RolledBackDryRun
    else Committed
  }

  /** Only a committed pass changes the tables. */
  function AfterPass(cal: Calendar, t: Tables, s: Settings, apply: bool): Tables {
    if PassOutcome(cal, t, s, apply).Committed? then Delete(t, PlanOf(cal, t, s)) else t
  }

  lemma {:induction false} HistoricalMembers(es: seq<Event>, plan: Plan, x: Target)
    ensures x in HistoricalTargets(es, plan) <==>
            exists e :: e in es && x == AtEvent(e.id) && e.id <= plan.boundaryEventId && e.id !in plan.deletableEventIds
    decreases |es|
  {
    if es != [] {
      HistoricalMembers(es[..|es| - 1], plan, x);
      assert forall e :: e in es <==> e == es[|es| - 1] || e in es[..|es| - 1];
    }
  }

  lemma {:induction false} RecentMembers(es: seq<Event>, boundary: nat, count: nat, x: Target)
    requires x in RecentTargets(es, boundary, count)
    ensures x.AtEvent? && x.eventId in EventIds(es) && x.eventId > boundary
    decreases |es|
  {
    if !(es[|es| - 1].id > boundary && x == AtEvent(es[|es| - 1].id)) {
      RecentMembers(es[..|es| - 1], boundary, if es[|es| - 1].id > boundary then count - 1 else count, x);
    } else {
      assert es[|es| - 1] in es;
    }
  }

  function Elements(ids: seq<nat>): set<nat> {
    set x | x in ids
  }

  lemma EventIdsOfFront(es: seq<Event>)
    requires AscendingEvents(es) && es != []
    ensures EventIds(es) == EventIds(es[..|es| - 1]) + {es[|es| - 1].id}
    ensures es[|es| - 1].id !in EventIds(es[..|es| - 1])
  {
    SplitEvents(es);
  }

  /** However the ids are batched, a delete removes one row per distinct id. */
  lemma {:induction false} DeletedRows(es: seq<Event>, ids: seq<nat>)
    requires AscendingEvents(es)
    ensures |es| - |WithoutEvents(es, ids)| == |Elements(ids) * EventIds(es)|
    decreases |es|
  {
    if es == [] {
      assert Elements(ids) * EventIds(es) == {};
    } else {
      var e, front := es[|es| - 1], es[..|es| - 1];
      DeletedRows(front, ids);
      EventIdsOfFront(es);
      var hit := Elements(ids) * EventIds(front);
      if e.id in ids {
        assert Elements(ids) * EventIds(es) == hit + {e.id};
      } else {
        assert Elements(ids) * EventIds(es) == hit;
      }
    }
  }

  ghost predicate NoDuplicates(ids: seq<nat>) {
    forall i, j :: 0 <= i < j < |ids| ==> ids[i] != ids[j]
  }

  lemma {:induction false} DistinctCount(ids: seq<nat>)
    ensures |Elements(ids)| <= |ids|
    ensures |Elements(ids)| == |ids| <==> NoDuplicates(ids)
    decreases |ids|
  {
    if ids != [] {
      var x, front := ids[|ids| - 1], ids[..|ids| - 1];
      DistinctCount(front);
      assert forall y :: y in ids <==> y == x || y in front;
      if x in front {
        assert Elements(ids) == Elements(front);
        var k :| 0 <= k < |front| && front[k] == x;
        assert ids[k] == ids[|ids| - 1];
      } else {
        assert Elements(ids) == Elements(front) + {x};
        if NoDuplicates(front) {
          assert NoDuplicates(ids);
        }
        if NoDuplicates(ids) {
          assert NoDuplicates(front);
        }
      }
    }
  }

  lemma PlannedDeletionCount(cal: Calendar, t: Tables, s: Settings)
    requires AscendingEvents(t.events) && AscendingCheckpoints(t.checkpoints)
    ensures var plan := PlanOf(cal, t, s);
            |t.events| - |Delete(t, plan).events| == |plan.deletableEventIds| <==> NoDuplicates(plan.deletableEventIds)
  {
    var ids := PlanOf(cal, t, s).deletableEventIds;
    DeletedRows(t.events, ids);
    DistinctCount(ids);
    forall x | x in ids
      ensures x in EventIds(t.events)
    {
      DoomedMembers(PlannedGaps(cal, t, s), t.events, x);
    }
    assert Elements(ids) * EventIds(t.events) == Elements(ids);
  }

  /** A verification target that is still there rebuilds exactly as before the pass. */
  lemma TargetsRebuildAlike(cal: Calendar, t: Tables, s: Settings, x: Target)
    requires AscendingEvents(t.events) && AscendingCheckpoints(t.checkpoints)
    requires x in VerificationTargets(t.events, PlanOf(cal, t, s))
    requires x.AtEvent? ==> x.eventId !in PlanOf(cal, t, s).deletableEventIds
    ensures Reconstruct(Delete(t, PlanOf(cal, t, s)), x) == Reconstruct(t, x)
  {
    var plan := PlanOf(cal, t, s);
    var t' := Delete(t, plan);
    Survivors(cal, t, s);
    if x in CheckpointTargets(plan.retainedCheckpointIds) {
      var rows := PlannedRows(cal, t, s);
      RetainedMembers(cal, t.checkpoints, t.checkpoints, CheckpointCutoff(s));
      var k :| 0 <= k < |rows| && x == AtCheckpoint(rows[k].id);
      assert rows[k] in rows;
      SurvivingCheckpointsRebuildIdentically(cal, t, s, rows[k]);
    } else {
      if x in HistoricalTargets(t.events, plan) {
        HistoricalMembers(t.events, plan, x);
      } else {
        RecentMembers(t.events, plan.boundaryEventId, RECENT_TARGETS, x);
      }
      WithoutEventsMembers(t.events, plan.deletableEventIds);
      SurvivingEventsRebuildIdentically(cal, t, s, x.eventId);
    }
  }

  ghost predicate DoomedTarget(t: Tables, plan: Plan, id: nat) {
    id in plan.deletableEventIds && AtEvent(id) in RecentTargets(t.events, plan.boundaryEventId, RECENT_TARGETS)
  }

  /** A planned event can only be a verification target as one of the newest rows above the boundary. */
  lemma DoomedTargetsAreRecent(cal: Calendar, t: Tables, s: Settings, x: Target)
    requires AscendingEvents(t.events) && AscendingCheckpoints(t.checkpoints)
    requires var plan := PlanOf(cal, t, s);
             x in VerificationTargets(t.events, plan) && x.AtEvent? && x.eventId in plan.deletableEventIds
    ensures DoomedTarget(t, PlanOf(cal, t, s), x.eventId)
    ensures Reconstruct(Delete(t, PlanOf(cal, t, s)), x).Err?
  {
    var plan := PlanOf(cal, t, s);
    HistoricalMembers(t.events, plan, x);
    WithoutEventsMembers(t.events, plan.deletableEventIds);
  }

  /** The comparison of rebuilt snapshots fails only over a target that was itself deleted. */
  lemma RebuildsAlikeExactlyWhen(cal: Calendar, t: Tables, s: Settings)
    requires AscendingEvents(t.events) && AscendingCheckpoints(t.checkpoints)
    requires AllRebuild(t, VerificationTargets(t.events, PlanOf(cal, t, s)))
    ensures RebuildsAlike(t, Delete(t, PlanOf(cal, t, s)), VerificationTargets(t.events, PlanOf(cal, t, s))) <==>
            !exists id :: DoomedTarget(t, PlanOf(cal, t, s), id)
  {
    var plan := PlanOf(cal, t, s);
    var t' := Delete(t, plan);
    var targets := VerificationTargets(t.events, plan);
    if id :| DoomedTarget(t, plan, id) {
      assert AtEvent(id) in targets;
      DoomedTargetsAreRecent(cal, t, s, AtEvent(id));
    } else {
      forall x | x in targets
        ensures Reconstruct(t', x) == Reconstruct(t, x)
      {
        if x.AtEvent? && x.eventId in plan.deletableEventIds {
          DoomedTargetsAreRecent(cal, t, s, x);
        } else {
          TargetsRebuildAlike(cal, t, s, x);
        }
      }
    }
  }

  /**
   * Exactly when a pass over a healthy board is rolled back, for any set of checkpoints: when the plan
   * names an event twice, or when one of the newest rows above the boundary is itself planned for
   * deletion. The comparison of rebuilt snapshots never fails for any other reason.
   */
  lemma PassFailsExactlyWhen(cal: Calendar, t: Tables, s: Settings, apply: bool)
    requires AscendingEvents(t.events) && AscendingCheckpoints(t.checkpoints)
    requires AllRebuild(t, VerificationTargets(t.events, PlanOf(cal, t, s)))
    requires !PassOutcome(cal, t, s, apply).NothingToDo?
    ensures PassOutcome(cal, t, s, apply).Failed? <==>
            !NoDuplicates(PlanOf(cal, t, s).deletableEventIds) || exists id :: DoomedTarget(t, PlanOf(cal, t, s), id)
  {
    PlannedDeletionCount(cal, t, s);
    RebuildsAlikeExactlyWhen(cal, t, s);
  }

  /* -------------------------------------------------- boards whose bases follow ids */

  ghost predicate BasesFollowIds(cs: seq<Checkpoint>) {
    forall c, d :: c in cs && d in cs && c.id < d.id ==> BaseOf(c) <= BaseOf(d)
  }

  ghost predicate StrictlyIncreasing(ids: seq<nat>) {
    forall i, j :: 0 <= i < j < |ids| ==> ids[i] < ids[j]
  }

  ghost predicate DisjointInOrder(gaps: seq<Gap>) {
    forall i, j :: 0 <= i < j < |gaps| ==> gaps[i].upper <= gaps[j].lower
  }

  lemma {:induction false} GapsInOrder(rows: seq<Checkpoint>, es: seq<Event>, cutoff: int, i: nat)
    requires AscendingCheckpoints(rows) && BasesFollowIds(rows)
    ensures DisjointInOrder(Gaps(rows, es, cutoff, i))
    ensures forall g :: g in Gaps(rows, es, cutoff, i) ==> i < |rows| && BaseOf(rows[i]) <= g.lower < g.upper
    decreases |rows| - i
  {
    if i + 1 < |rows| && rows[i + 1].createdAt < cutoff {
      GapsInOrder(rows, es, cutoff, i + 1);
      assert rows[i] in rows && rows[i + 1] in rows;
    }
  }

  lemma IncreasingConcat(xs: seq<nat>, ys: seq<nat>, mid: nat)
    requires StrictlyIncreasing(xs) && StrictlyIncreasing(ys)
    requires (forall x :: x in xs ==> x <= mid) && (forall y :: y in ys ==> mid < y)
    ensures StrictlyIncreasing(xs + ys)
  {
    forall i, j | 0 <= i < j < |xs + ys|
      ensures (xs + ys)[i] < (xs + ys)[j]
    {
      if i < |xs| <= j {
        assert xs[i] in xs && ys[j - |xs|] in ys;
      }
    }
  }

  lemma IncreasingIds(es: seq<Event>, g: Gap)
    requires AscendingEvents(es)
    ensures var ids := IdsOf(EventsBetween(es, g.lower, g.upper));
            StrictlyIncreasing(ids) && forall x :: x in ids ==> g.lower < x <= g.upper
  {
    var between := EventsBetween(es, g.lower, g.upper);
    BetweenMembers(es, g.lower, g.upper);
    forall x | x in IdsOf(between)
      ensures g.lower < x <= g.upper
    {
      var k :| 0 <= k < |between| && between[k].id == x;
      assert between[k] in between;
    }
  }

  lemma {:induction false} DoomedInOrder(gaps: seq<Gap>, es: seq<Event>)
    requires AscendingEvents(es) && DisjointInOrder(gaps)
    ensures StrictlyIncreasing(DoomedIds(gaps, es))
    decreases |gaps|
  {
    if gaps != [] {
      var tail := DoomedIds(gaps[1..], es);
      IncreasingIds(es, gaps[0]);
      DoomedInOrder(gaps[1..], es);
      forall x | x in tail
        ensures gaps[0].upper < x
      {
        DoomedMembers(gaps[1..], es, x);
        var g :| g in gaps[1..] && g.lower < x <= g.upper;
      }
      IncreasingConcat(IdsOf(EventsBetween(es, gaps[0].lower, gaps[0].upper)), tail, gaps[0].upper);
    }
  }

  /**
   * On a board whose checkpoint bases never decrease with id, the planned gaps are disjoint and in order,
   * the planned ids are strictly increasing and the boundary is the greatest of them.
   */
  lemma PlanIsOrdered(cal: Calendar, t: Tables, s: Settings)
    requires AscendingEvents(t.events) && AscendingCheckpoints(t.checkpoints) && BasesFollowIds(t.checkpoints)
    ensures var plan := PlanOf(cal, t, s);
            && DisjointInOrder(PlannedGaps(cal, t, s))
            && StrictlyIncreasing(plan.deletableEventIds)
            && NoDuplicates(plan.deletableEventIds)
            && (forall x :: x in plan.deletableEventIds ==> x <= plan.boundaryEventId)
  {
    RetainedMembers(cal, t.checkpoints, t.checkpoints, CheckpointCutoff(s));
    GapsInOrder(PlannedRows(cal, t, s), t.events, DetailedCutoff(s), 0);
    DoomedInOrder(PlannedGaps(cal, t, s), t.events);
  }

  /** ... so a pass over a board all of whose targets rebuild never fails: it commits whenever it is asked to. */
  lemma OrderedPassNeverFails(cal: Calendar, t: Tables, s: Settings, apply: bool)
    requires AscendingEvents(t.events) && AscendingCheckpoints(t.checkpoints) && BasesFollowIds(t.checkpoints)
    requires AllRebuild(t, VerificationTargets(t.events, PlanOf(cal, t, s)))
    ensures !PassOutcome(cal, t, s, apply).Failed?
  {
    PlanIsOrdered(cal, t, s);
    var plan := PlanOf(cal, t, s);
    if PassOutcome(cal, t, s, apply).Failed? {
      PassFailsExactlyWhen(cal, t, s, apply);
      var id :| DoomedTarget(t, plan, id);
      RecentMembers(t.events, plan.boundaryEventId, RECENT_TARGETS, AtEvent(id));
    }
  }
}
