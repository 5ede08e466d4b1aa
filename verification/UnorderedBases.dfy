/**
 * Boards whose checkpoint bases go back down. No run of the server leads to one, but the compaction script
 * accepts any database, and on these two a pass fails for the two reasons a pass can fail.
 */
module UnorderedBases {
  import opened Wrappers
  import opened Snapshots
  import opened Tables
  import opened Compaction
  import opened CompactionPass

  /** Everything is older than the cutoffs. */
  const OLD := Settings(1, 0, 0)

  function BlankEvent(id: nat): Event {
    Event(id, EventInput(Header(None, None, "user.joined", None, None, Human), 0, map[], [], None))
  }

  function PlainCheckpoint(id: nat, base: nat): Checkpoint {
    Checkpoint(id, 0, Some(base), Explicit, Snapshot(map[], map[], 0, 0))
  }

  /** Two events that change nothing, and explicit checkpoints of an empty board with these bases. */
  function BlankBoard(bases: seq<nat>): Tables {
    Tables([BlankEvent(1), BlankEvent(2)], [], seq(|bases|, i requires 0 <= i < |bases| => PlainCheckpoint(i + 1, bases[i])),
           2, 0, |bases|, Trail([], [], map[]))
  }

  lemma BlankBoardIsOrderedById(bases: seq<nat>)
    ensures AscendingEvents(BlankBoard(bases).events) && AscendingCheckpoints(BlankBoard(bases).checkpoints)
  {
  }

  /** Nothing an explicit checkpoint holds is ever thinned out. */
  lemma AllRowsArePlanned(cal: Calendar, bases: seq<nat>)
    ensures PlannedRows(cal, BlankBoard(bases), OLD) == BlankBoard(bases).checkpoints
  {
    var cs := BlankBoard(bases).checkpoints;
    BlankBoardIsOrderedById(bases);
    RetainedMembers(cal, cs, cs, CheckpointCutoff(OLD));
    SameMembersSameRows(RetainedRows(cal, cs, cs, CheckpointCutoff(OLD)), cs);
  }

  lemma {:induction false} NothingToReplay(es: seq<Event>)
    requires forall e :: e in es ==> e.input.changes == []
    ensures AllChanges(es) == []
    decreases |es|
  {
    if es != [] {
      assert es[0] in es;
      NothingToReplay(es[1..]);
    }
  }

  lemma RebuildsFrom(bases: seq<nat>, target: Option<nat>, c: Checkpoint)
    ensures Rebuild(BlankBoard(bases), target, c).Ok?
  {
    var t := BlankBoard(bases);
    if target.Some? {
      BetweenMembers(t.events, BaseOf(c), target.value);
      NothingToReplay(EventsBetween(t.events, BaseOf(c), target.value));
      HistoryReplayStates(c.snapshot, EventsBetween(t.events, BaseOf(c), target.value));
    } else {
      HistoryReplayStates(c.snapshot, []);
    }
  }

  lemma RetainedRebuilds(cal: Calendar, bases: seq<nat>, x: Target)
    requires x in CheckpointTargets(PlanOf(cal, BlankBoard(bases), OLD).retainedCheckpointIds)
    ensures Reconstruct(BlankBoard(bases), x).Ok?
  {
    var t := BlankBoard(bases);
    BlankBoardIsOrderedById(bases);
    AllRowsArePlanned(cal, bases);
    var k :| 0 <= k < |t.checkpoints| && x == AtCheckpoint(t.checkpoints[k].id);
    FindById(t.checkpoints, t.checkpoints[k]);
    RebuildsFrom(bases, t.checkpoints[k].base, t.checkpoints[k]);
  }

  /** Before the pass every restore point it will look at rebuilds: the board is healthy. */
  lemma BlankBoardIsHealthy(cal: Calendar, bases: seq<nat>, i: nat)
    requires i < |bases| && bases[i] <= 1
    ensures AllRebuild(BlankBoard(bases), VerificationTargets(BlankBoard(bases).events, PlanOf(cal, BlankBoard(bases), OLD)))
  {
    var t, plan := BlankBoard(bases), PlanOf(cal, BlankBoard(bases), OLD);
    BlankBoardIsOrderedById(bases);
    assert t.checkpoints[i] in t.checkpoints;
    forall x | x in VerificationTargets(t.events, plan)
      ensures Reconstruct(t, x).Ok?
    {
      if x in CheckpointTargets(plan.retainedCheckpointIds) {
        RetainedRebuilds(cal, bases, x);
      } else {
        HistoricalMembers(t.events, plan, x);
        if x in RecentTargets(t.events, plan.boundaryEventId, RECENT_TARGETS) {
          RecentMembers(t.events, plan.boundaryEventId, RECENT_TARGETS, x);
        }
        BestIsBest(t.checkpoints, Some(x.eventId));
        RebuildsFrom(bases, Some(x.eventId), BestCheckpoint(t.checkpoints, Some(x.eventId)).value);
      }
    }
  }

  lemma Between(after: nat, upTo: nat)
    requires after < upTo <= 2
    ensures var es := EventsBetween(BlankBoard([]).events, after, upTo);
            es == if after == 1 then [BlankEvent(2)] else if upTo == 1 then [BlankEvent(1)] else [BlankEvent(1), BlankEvent(2)]
  {
    var es := BlankBoard([]).events;
    assert es[..1] == [BlankEvent(1)] && es[..1][..0] == [];
    assert EventsBetween(es[..1], after, upTo) == if after == 0 then [BlankEvent(1)] else [];
  }

  /* ------------------------------------------------------------- the same gap twice */

  lemma TwiceGaps()
    ensures Gaps(BlankBoard([0, 2, 0, 2]).checkpoints, BlankBoard([]).events, 1, 0) == [Gap(0, 2), Gap(0, 2)]
  {
    var cs, es := BlankBoard([0, 2, 0, 2]).checkpoints, BlankBoard([]).events;
    Between(0, 2);
    assert Deletable(Gap(0, 2), es);
    assert Gaps(cs, es, 1, 3) == [];
    assert Gaps(cs, es, 1, 2) == [Gap(0, 2)];
    assert Gaps(cs, es, 1, 1) == [Gap(0, 2)];
  }

  lemma TwicePlan(cal: Calendar)
    ensures PlanOf(cal, BlankBoard([0, 2, 0, 2]), OLD).deletableEventIds == [1, 2, 1, 2]
  {
    AllRowsArePlanned(cal, [0, 2, 0, 2]);
    TwiceGaps();
    Between(0, 2);
    var es := BlankBoard([]).events;
    assert IdsOf(es) == [1, 2];
    assert [Gap(0, 2), Gap(0, 2)][1..] == [Gap(0, 2)] && [Gap(0, 2)][1..] == [];
    assert DoomedIds([Gap(0, 2)], es) == [1, 2];
  }

  lemma BasesGoDown(bases: seq<nat>, i: nat, j: nat)
    requires i < j < |bases| && bases[i] > bases[j]
    ensures !BasesFollowIds(BlankBoard(bases).checkpoints)
  {
    var cs := BlankBoard(bases).checkpoints;
    assert cs[i] in cs && cs[j] in cs;
  }

  /**
   * A base goes back down, the same gap is planned twice, every id appears twice, and the pass over a healthy
   * board is rolled back although every survivor would have been intact.
   */
  lemma UnorderedBasesAbortThePass(cal: Calendar)
    ensures var t := BlankBoard([0, 2, 0, 2]);
            && AscendingEvents(t.events) && AscendingCheckpoints(t.checkpoints) && !BasesFollowIds(t.checkpoints)
            && AllRebuild(t, VerificationTargets(t.events, PlanOf(cal, t, OLD)))
            && PlanOf(cal, t, OLD).deletableEventIds == [1, 2, 1, 2]
            && PassOutcome(cal, t, OLD, true).Failed?
  {
    var bases := [0, 2, 0, 2];
    BlankBoardIsOrderedById(bases);
    BasesGoDown(bases, 1, 2);
    BlankBoardIsHealthy(cal, bases, 0);
    TwicePlan(cal);
    var ids := PlanOf(cal, BlankBoard(bases), OLD).deletableEventIds;
    assert ids[0] == ids[2];
    PlannedDeletionCount(cal, BlankBoard(bases), OLD);
  }

  /* ----------------------------------------------------- a verification target deleted */

  lemma BackwardsGaps()
    ensures Gaps(BlankBoard([1, 2, 0, 1]).checkpoints, BlankBoard([]).events, 1, 0) == [Gap(1, 2), Gap(0, 1)]
  {
    var cs, es := BlankBoard([1, 2, 0, 1]).checkpoints, BlankBoard([]).events;
    Between(1, 2);
    Between(0, 1);
    assert Deletable(Gap(1, 2), es) && Deletable(Gap(0, 1), es);
    assert Gaps(cs, es, 1, 3) == [];
    assert Gaps(cs, es, 1, 2) == [Gap(0, 1)];
    assert Gaps(cs, es, 1, 1) == [Gap(0, 1)];
  }

  lemma BackwardsPlan(cal: Calendar)
    ensures var plan := PlanOf(cal, BlankBoard([1, 2, 0, 1]), OLD);
            plan.deletableEventIds == [2, 1] && plan.boundaryEventId == 1
  {
    AllRowsArePlanned(cal, [1, 2, 0, 1]);
    BackwardsGaps();
    Between(1, 2);
    Between(0, 1);
    var es := BlankBoard([]).events;
    assert IdsOf([BlankEvent(1)]) == [1] && IdsOf([BlankEvent(2)]) == [2];
    assert [Gap(1, 2), Gap(0, 1)][1..] == [Gap(0, 1)] && [Gap(0, 1)][1..] == [];
    assert DoomedIds([Gap(0, 1)], es) == [1];
  }

  /**
   * The gaps are planned in descending order, so the boundary, the last id planned, is not the greatest: event
   * 2 is above it, is looked at again after the pass, and is gone. Every id is planned once and the count is
   * right; it is the comparison of rebuilt snapshots that fails.
   */
  lemma DeletedTargetAbortsThePass(cal: Calendar)
    ensures var t := BlankBoard([1, 2, 0, 1]);
            var plan := PlanOf(cal, t, OLD);
            && AscendingEvents(t.events) && AscendingCheckpoints(t.checkpoints) && !BasesFollowIds(t.checkpoints)
            && AllRebuild(t, VerificationTargets(t.events, plan))
            && plan.deletableEventIds == [2, 1] && |t.events| - |Delete(t, plan).events| == 2
            && DoomedTarget(t, plan, 2)
            && !RebuildsAlike(t, Delete(t, plan), VerificationTargets(t.events, plan))
            && PassOutcome(cal, t, OLD, true).Failed?
  {
    var bases := [1, 2, 0, 1];
    var t, plan := BlankBoard(bases), PlanOf(cal, BlankBoard(bases), OLD);
    BlankBoardIsOrderedById(bases);
    BasesGoDown(bases, 1, 2);
    BlankBoardIsHealthy(cal, bases, 0);
    BackwardsPlan(cal);
    assert NoDuplicates(plan.deletableEventIds);
    PlannedDeletionCount(cal, t, OLD);
    assert RecentTargets(t.events, 1, RECENT_TARGETS)[0] == AtEvent(2);
    assert DoomedTarget(t, plan, 2);
    RebuildsAlikeExactlyWhen(cal, t, OLD);
  }
}
