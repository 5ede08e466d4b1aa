# A verified model of the collaborative canvas server

This project models the parts of the canvas server in which state is kept, thinned out, moved about or
guarded, and proves what those parts are for.

`Wrappers` holds the two datatypes shared by all.

* **Board history.** A board is a document map. Human edits are staged as fragments and later merged into
  events, other writes become events at once, checkpoints hold whole snapshots, a restore writes a marker,
  loads an old snapshot and writes another marker, and a compaction pass deletes whole gaps of events and the
  checkpoints inside them. `Records`, `Merge` and `Snapshots` hold changes, merging and replay; `Tables` the
  rows and every operation on them; `Compaction` and `CompactionPass` the plan and the pass;
  `UnorderedBases` two boards the pass refuses; `HistoryInvariant` the invariant; `BoardRuns` the board as one
  state machine; `Stamps` its time stamps. `Replaying`, `Coalescing`, `Checkpointing` and `Policy` say the same in
  terms of the rows alone: what a replay leaves of each record, which edits become one event, when a checkpoint is
  written and what it holds, and what a pass deletes. `HistoryStore`, `Rooms` and `CompactHistory` are the imperative
  program: the store, recorder, storage wrapper, room steps and the compaction script as classes and loops, each
  proved to take exactly a step of that machine.
* **Layout.** `Geometry`, `Sliding`, `Arrange` and `Transforms` hold rectangles, collision-free sliding, rows,
  stacks, grids and rotated frames; `LayoutTree`, `LayoutBounds`, `Arrows`, `Containment` and `LayoutBuilder` the
  page layout: the walk, boxes, arrows that end where they are bound, and groups around all of it. `MovedLayout`,
  `Drift` and `Placement` say what moving shapes does to a layout, `Certification`, `Spacing`, `LooseTargets`,
  `BatchMoves`, `Arrangements` and `LayoutActions` how the verifier judges it; `Outlines` and `Surroundings` what the
  boxes, blockers and starting points of a page are, corner by corner; `PlainPages` and `SmallPages` the pages on which a
  certified condition fails. Coordinates are reals, a rotation is a unit pair, and an arrow's bindings are part of
  its record.
* **Limits, backups, accounts, action batches.** `RateLimiter`, `Retention` with `Generations`, `Accounts` with
  `Entitlements` and `AuthService`, and `ActionBatch` with `ActionEffects`.

`dafny verify dfyconfig.toml` checks everything.

## How the history is judged

The tables carry a history variable, the trail: every event ever written, the document map as of each of them,
and the document map at each staged fragment. No operation reads it. "Rebuilds to what the board had" means
agreement with the trail; `BoardRuns.TimeTravel` says the same without it, in terms of the live documents of an
earlier moment of the run.

Assumptions about the surroundings, all in `BoardRuns.Enabled` or in the contracts in `Rooms`: documents change
only in committed storage transactions that carry a write context, or through a restore; the document clock
rises when documents change; a recorded transaction carries the diff of the document maps; loading a snapshot
replaces the document map by it. Nothing is assumed about the timestamps of events and checkpoints, except in
`Stamps` that the clock does not run backwards and that no event is stamped later than the reading that follows it.

## What came out

* The comparison of rebuilt snapshots in the compaction pass can fail for one reason only: one of its own
  targets, a newest row above the boundary, was itself deleted. That, or an event planned twice, takes
  checkpoints whose bases decrease with id. `CompactionPass.PassFailsExactlyWhen` gives the exact condition,
  `UnorderedBases` a concrete board for each of the two cases, and `BoardRuns.CompactionNeverFailsOnABoard` shows
  that no reachable board is like that. Even then every survivor would have been intact.
* The comment in `scripts/compact-history.ts` (lines 171-173) says that a gap holding an invitation, a
  permission change or a restore marker is skipped whole. The code skips only empty gaps. The model follows
  the code.
* The printed week number of `isoWeek` can be off by one, but two timestamps share a label exactly when they
  share a Monday-to-Sunday week, for any calendar.
* 500 slides are enough for 500 blockers and not for 501 (`Sliding.CapIsSharp`, for every cap).
* Placing a shape relative to a group that contains it, reached through groups only, can never keep a spacing
  above the tolerance, because the group closes on the shape again; relative to a shape inside it the gap stays
  what it was. Where no arrow is bound across, that is, from under the shape to elsewhere or back, the spacing is
  kept in every other case (`Certification.SpacingCanHold`, `Spacing.PlainSpacing`).
* An arrow bound across can move the edge of a group that does not contain the shape. A target that holds an arrow
  bound to the shape reaches for it, and the spacing is not kept (`Spacing.TiedTargetFollows`; for a box thinner
  than 2 the arrow may end up to 1 outside it). In full,
  `Certification.SpacingForeseen` is the exact condition, evaluated on the old layout: a target made from what stays
  keeps the spacing, one made from what moves keeps the gap it had, and one made from both is boxed again in the
  carried frames. Such a one keeps the spacing if everything in it ends inside the box it had
  (`LooseTargets.LooseTargetKeepsSpacing`). `SmallPages` has a page for each way of failing.
* A row, stack or grid that avoids collisions can still end in an overlap, because what is inside or around any
  member is no blocker for the others. `Arrangements.KeepOut`, which can be evaluated on the plan, is exactly the
  condition under which the verifier finds none, and `SmallPages` shows both ways it fails: a member brought into
  the frame of another, and a member set on a shape that sticks out of another. Spacing holds if no member is a
  group with an arrow bound to what is elsewhere; `Arrangements.PairsForeseen` is exact, and `SmallPages` has a row
  that is found touching.
* A shape directly in a turned arrow would be moved by its delta turned wrongly, because the layout reports arrows as
  not turned (`Placement.DisplacementIsExactExactlyWhen`). The editor puts nothing in arrows.
* The comment on `findFreeRegion` (`shared/layout-engine.ts`, line 76) says that the default place below the page
  is clear by construction. It need not be: the extent leaves out what is inside other shapes.
  `LayoutActions.DefaultAnchorIsClear` says when it is.
* A move is not written when it is shorter than 0.001 along both axes, so "where it was wanted" is exact up to
  that (`Certification.Arrived`).
* Backup retention keeps at most 25 archives, three fewer than its limits add up to, because a week has at most
  seven days; for arbitrary period functions the bound is 26.
* The free fields of an entity may override its id and empty its relations. Neither breaks a relation.

## Model

| member | source | states |
|---|---|---|
| `BoardRuns.EveryRunRebuilds` | server/history.ts:699-741 | after any run of pushes, immediate events, flushes, restarts, checkpoints, restores and compaction passes, every event and every checkpoint still stored rebuilds without divergence to the document map observed for it |
| `BoardRuns.TimeTravel` | server/history.ts:699-741 | any moment of any run with nothing staged: its newest event, while still stored, rebuilds later to exactly the documents that were live then |
| `BoardRuns.RunKeepsTrusted` | server/history-storage.ts:78-126 | every run keeps the history invariant and rewrites nothing already observed |
| `BoardRuns.StepKeepsTrusted` | server/rooms.ts:123-190 | each single step of the server, restart and a process that dies between an event and its checkpoint included, keeps the history invariant and only extends what was observed |
| `BoardRuns.HistoryReachesThePresent` | server/history.ts:496-543 | at every reachable state the newest checkpoint, the events after it and the staged fragments in id order replay to the live documents |
| `BoardRuns.PushedStateIsReachable` | server/history.ts:447-494 | after a push and the flush that closes its group, the newest event rebuilds, at any later moment of any run that still stores it, to exactly the document map that was live after the push |
| `BoardRuns.RestoreIsAppendOnly` | server/rooms.ts:271-310 | a rejected restore changes no document; either way no earlier row is touched and every earlier event and every earlier checkpoint rebuilds to the document map it rebuilt to before |
| `BoardRuns.RestoreIsReversible` | server/rooms.ts:271-310 | after an accepted restore and any run in between, restoring to its restore.started event, while that is stored and the clock expected is the live one, is accepted and brings back the document map from before the first restore |
| `BoardRuns.CompactionNeverFailsOnABoard` | scripts/compact-history.ts:270-352 | on every reachable board the pass commits, rolls back a dry run or has nothing to do; it never fails verification |
| `HistoryInvariant.EveryStoredEventRebuilds` | server/history.ts:699-741 | under the history invariant a stored event rebuilds to the document map as of that event, never diverging |
| `HistoryInvariant.EveryCheckpointRebuilds` | server/history.ts:680-741 | a stored checkpoint used as target rebuilds to the document map it was taken at |
| `HistoryInvariant.FlushKeepsSound` | server/history.ts:496-543 | flushing, forced or cut off at any time, keeps the invariant of the same live board |
| `HistoryInvariant.FlushConsumesPrefix` | server/history.ts:496-543 | a flush takes a prefix of the staged rows and leaves the rest untouched and in order; a forced one takes all |
| `HistoryInvariant.FlushStopsAtUndueGroup` | server/history.ts:511-514 | an unforced flush that leaves rows stops exactly at a group with a row that is not due |
| `HistoryInvariant.PublishKeepsSound` | server/history.ts:515-541 | publishing a group writes the net difference it made as of its last fragment, and the rest still leads to the live board |
| `HistoryInvariant.DeleteKeepsSound` | scripts/compact-history.ts:317-336 | deleting exactly what is planned keeps the history invariant |
| `HistoryInvariant.GapIsBridged` | scripts/compact-history.ts:177-189 | whatever is missing between a survivor and the origin lies below a surviving checkpoint that the survivor replays from |
| `Merge.MergePreservesMeaning` | server/history.ts:327-342 | whenever groups of changes replay one by one, their merged list replays to the same document map and is exactly the net difference |
| `Merge.MergedIsWellFormed` | server/history.ts:327-342 | merging anything at all names each record once, never with two equal sides |
| `Merge.MergeChanges` | server/history.ts:327-342 | the table of merged changes built by the loop is the specified merge, in insertion order |
| `Records.ReplayIffDiff` | server/history.ts:367-387 | an effective list with one change per record replays a to b if and only if it is their diff |
| `Records.ReplayIffBridges` | server/history.ts:822-839 | with one change per record replay is order-free and succeeds exactly when every before matches |
| `Records.DiffReverses` | server/history.ts:367-387 | the reversed diff takes b back to a |
| `Records.DiffIsMinimal` | server/history.ts:367-387 | a diff lists exactly the records on which the maps differ |
| `Records.ChangesBetween` | server/history.ts:367-387 | walking the keys of both snapshots yields their diff, one change per differing record |
| `Snapshots.HistoryReplayStates` | server/history.ts:815-849 | replaying events on a snapshot diverges exactly when their changes do not replay on its document map, and otherwise gives that map |
| `Snapshots.ReplayKeepsClocks` | server/history.ts:815-849 | a successful replay keeps live records and tombstones apart, the document clock from going back, and every stamp at or below it |
| `Snapshots.ReplayEvents` | server/history.ts:815-849 | the loop over events and changes gives the specified snapshot, of which Replaying.ReplayLeaves says what is in it, and stops at the first record that does not match and reports it |
| `Replaying.ReplayLeaves` | server/history.ts:815-849 | after a successful replay every record an event names is live or a tombstone as its last change left it, stamped with the clock of that event; every other is as in the base; the document clock is the greatest of the base’s and the events’, and an event without a clock counts one more than the greatest before it |
| `Replaying.ReplayForgetsNone` | server/history.ts:815-849 | the records there are afterwards, live or as tombstones, are those of the base and those an event names |
| `Tables.BestIsBest` | server/history.ts:702-721 | the checkpoint picked is eligible and none eligible outranks it by base, then id |
| `Tables.BestIsUnique` | server/history.ts:702-721 | that choice is the only one the ordering allows |
| `Tables.BetweenMembers` | server/history.ts:724-732 | the events replayed are exactly the stored ones above the base and up to the target |
| `Tables.FlushOnlyAppends` | server/history.ts:496-543 | a flush only adds events, and if it added any the newest row is the newest event |
| `HistoryStore.GroupIsMaximalRun` | server/history.ts:505-509 | a group is the longest run of rows that share the group of the first |
| `HistoryStore.GroupEventSpeaksForAll` | server/history.ts:516-535 | the attribution of the event a group becomes is that of every row in the group |
| `Coalescing.GroupedMeansTogether` | server/history.ts:447-466 | two rows are of one group if and only if actor, session, source, event type, entity type, entity id and key are each equal |
| `Coalescing.FlushPublishesRuns` | server/history.ts:496-543 | a flush cuts the staged rows where neighbours do not belong together and nowhere else, writes one event for each run that has a net change or metadata, attributed like its rows, stamped with the last one’s time and clock, the last row to give a key deciding its value; it stops at the first run that is not due, or never if forced |
| `Coalescing.OneRunIsOneEvent` | server/history.ts:505-541 | rows all alike become at most one event in a forced flush, and exactly one if they changed or said anything |
| `HistoryStore.BoardHistoryStore.InsertEvent` | server/history.ts:405-433 | adds one row with the next id and nothing else |
| `HistoryStore.BoardHistoryStore.AppendEvent` | server/history.ts:435-445 | refuses changes with two absent sides; otherwise flushes first and then adds the event |
| `HistoryStore.BoardHistoryStore.AppendFragment` | server/history.ts:447-494 | refuses the same changes; otherwise stages exactly one row |
| `HistoryStore.BoardHistoryStore.FlushFragments` | server/history.ts:496-543 | the new tables are the specified flush, which publishes the runs of Coalescing.FlushPublishesRuns, and the events returned are the ones added |
| `HistoryStore.BoardHistoryStore.PublishGroups` | server/history.ts:505-542 | going through the groups in order, stopping at the first that is not due, is the specified flush |
| `HistoryStore.BoardHistoryStore.FlushGroup` | server/history.ts:511-541 | one group: stop exactly if unforced and not due, otherwise publish it and drop exactly its rows |
| `HistoryStore.RangeIsPrefix` | server/history.ts:538-541 | deleting a group by its id range removes exactly that group |
| `HistoryStore.BoardHistoryStore.CreateCheckpoint` | server/history.ts:616-621 | publishes every staged edit first, then adds exactly one checkpoint row with the given base |
| `HistoryStore.BoardHistoryStore.EnsureLegacyImportCheckpoint` | server/history.ts:655-678 | on a board without any checkpoint writes a board.imported event and an origin based on it; otherwise nothing |
| `HistoryStore.BoardHistoryStore.PickCheckpoint` | server/history.ts:702-721 | the scan returns the best eligible checkpoint |
| `HistoryStore.BoardHistoryStore.ReconstructTarget` | server/history.ts:699-741 | the result, or which error, for an event, a checkpoint or a time, as specified; Replaying says what that is |
| `Replaying.ReconstructionIsExplained` | server/history.ts:699-741 | every successful reconstruction, said of the rows alone: the event the target stands for, the checkpoint that is named or is based latest on the way there, exactly the stored events after it in order, and every record, stamp and clock they leave |
| `Replaying.FailureIsExplained` | server/history.ts:699-741 | every failed one: no such event, no such checkpoint, none to start from, or a stored event that does not fit |
| `Rooms.BoardHistoryRecorder.constructor` | server/history.ts:873-885 | a new recorder publishes whatever a dead process left staged and picks up its counters from the tables |
| `Rooms.BoardHistoryRecorder.RecordHumanFragmentRow` | server/history.ts:887-897 | stages the edit and arms the timer |
| `Rooms.BoardHistoryRecorder.RecordEvent` | server/history.ts:912-921 | flush, append, then checkpoint if due, in that order |
| `Rooms.BoardHistoryRecorder.Flush` | server/history.ts:923-929 | a forced flush, and a checkpoint only if something was published |
| `Rooms.BoardHistoryRecorder.CheckpointIfDue` | server/history.ts:941-956 | a periodic checkpoint once enough events or enough time have passed |
| `Checkpointing.FlushWrites` | server/history.ts:923-956 | a flush that published nothing writes no checkpoint; one that did writes exactly one, periodic, of the live board and based on the newest event, if as many events or as much time as the policy allows have passed since the marks, and moves both marks; otherwise none |
| `Checkpointing.RecordWrites` | server/history.ts:912-956 | the same after every immediate event, which is then the newest |
| `Checkpointing.AskedForWrites` | server/rooms.ts:246-265 | a checkpoint asked for is one explicit row more, of the live board, of that time, based on its own note |
| `Checkpointing.RestoreWrites` | server/history.ts:743-812 | an accepted restore writes two events and two rows: pre_restore of the board as it was, based on the started note, and restore_completed of the board as loaded, based on the completed note, each with its own time |
| `Checkpointing.RestartWrites` | server/history.ts:873-885 | a restart writes no checkpoint and takes its marks from the newest event and the newest checkpoint |
| `Checkpointing.FirstStartWrites` | server/history.ts:655-678 | the first start of a board writes board.imported, without changes and with the live clock, and an origin of the live board based on it |
| `Checkpointing.PushWaitsItsWindow` | server/history.ts:887-897 | a pushed edit stays staged while its window lasts, whatever else is staged; once all windows are over nothing stays |
| `Rooms.HistorySyncStorage.Transaction` | server/history-storage.ts:78-126 | a committed transaction is exactly one step of the run: staged for a human, immediate otherwise, unrecorded without a context; what it records has the actor, session, source and metadata of the context and the time and key given; an abandoned one changes nothing, and the context is spent either way |
| `Rooms.HistorySyncStorage.WithContext` | server/history-storage.ts:71-76 | a transaction run under a given context is one step recorded under that context, and whatever context was pending before is pending again |
| `Rooms.HistorySyncStorage.ReceivePush` | server/rooms.ts:150-163 | what a socket pushes is staged as an edit of that user in that session exactly when it moved the document clock, and is never written as an event at once |
| `Rooms.OpenRoom` | server/rooms.ts:123-190 | opening a room is the restart step |
| `Rooms.TakeRoomCheckpoint` | server/rooms.ts:246-265 | an explicit checkpoint is the checkpoint step: flush, note, checkpoint |
| `Rooms.ProjectAudit` | server/rooms.ts:54-79 | projecting a page of account events is that many immediate steps, each with its own stamp and its own reading of the clock |
| `Rooms.RestoreRoomVersion` | server/rooms.ts:271-310 | a restore is the restore step, with its three outcomes told apart and the changes of its completed event worked out from the two snapshots |
| `Compaction.SurvivingEventsRebuildIdentically` | scripts/compact-history.ts:161-206 | for any checkpoint set, every event that survives the plan rebuilds from the same checkpoint through the same events as before, or fails alike |
| `Compaction.SurvivingCheckpointsRebuildIdentically` | scripts/compact-history.ts:161-206 | the same for every checkpoint that survives |
| `Compaction.Survivors` | scripts/compact-history.ts:177-206 | which events and which checkpoints are left: those in no deleted gap, and the retained ones or those not strictly inside |
| `Compaction.GapClosedBySurvivor` | scripts/compact-history.ts:177-189 | each deleted gap ends at the base of a checkpoint that survives |
| `Compaction.IsoWeekIsExact` | scripts/compact-history.ts:103-112 | two timestamps get the same label exactly when they fall in the same Monday-to-Sunday UTC week |
| `CompactionPass.WeeklyThinningIsExact` | scripts/compact-history.ts:145-159 | for every old automatic checkpoint the newest automatic one of its week is retained |
| `CompactionPass.RecentHistoryIsUntouched` | scripts/compact-history.ts:146-189 | as long as no checkpoint is stamped earlier than an event at or below its base, no event of the full-resolution window goes; nor ever a checkpoint made by hand, as Policy.ByHandStays spells out, or a recent one |
| `Policy.PlanFollowsPolicy` | scripts/compact-history.ts:121-233 | which events and checkpoints go, with every reason and number spelled out: kept are the first, the last, the first without a base, explicit and pre_restore ones, those not yet old and the newest of each week; with two neighbours among them, all but the very first older than the window, all events between their bases go, and with them the checkpoints based strictly inside that are not kept |
| `Policy.TargetsAreRestorePoints` | scripts/compact-history.ts:242-262 | a pass rebuilds, before and after, exactly every checkpoint that is kept, every event up to the boundary that does not go and those of the newest hundred that lie above it; the boundary is an event that goes, if any does |
| `Policy.ByHandStays` | scripts/compact-history.ts:146-149 | no pass under any settings takes an explicit or a pre_restore checkpoint |
| `Policy.WayBackStays` | server/rooms.ts:271-310 | the way back from an accepted restore: whatever run follows, passes included, the pre_restore checkpoint is there and rebuilds to the documents there were |
| `Stamps.RecentHistoryOfABoardIsUntouched` | scripts/compact-history.ts:146-189 | on every board along whose run the clock never ran backwards and no event was stamped in the future that holds outright, however late an account event was noted: no event of the window, no checkpoint made by hand and no recent one is deleted |
| `Stamps.ProjectedPageIsTimed` | server/rooms.ts:54-79 | projecting a page of account events, however old their stamps, is such a run |
| `CompactionPass.SecondPassPlansNothing` | scripts/compact-history.ts:121-233 | planning again after a pass, with the same clock, finds nothing to delete |
| `CompactionPass.PlanIsOrdered` | scripts/compact-history.ts:177-206 | with bases that never decrease, the planned ids are strictly increasing, the gaps disjoint, the boundary their greatest |
| `CompactionPass.OrderedPassNeverFails` | scripts/compact-history.ts:270-352 | with such bases a pass over a board whose verification targets rebuild never fails, and commits whenever asked to |
| `CompactionPass.PassFailsExactlyWhen` | scripts/compact-history.ts:317-340 | a pass over a healthy board is rolled back exactly when an event is planned twice or a newest verification row is itself planned for deletion |
| `CompactionPass.RebuildsAlikeExactlyWhen` | scripts/compact-history.ts:337-340 | the comparison of rebuilt snapshots fails only over a verification target that was itself deleted |
| `UnorderedBases.UnorderedBasesAbortThePass` | scripts/compact-history.ts:317-330 | a healthy board with checkpoint bases 0, 2, 0, 2: each event is planned twice, fewer rows go than planned, and the pass is rolled back |
| `UnorderedBases.DeletedTargetAbortsThePass` | scripts/compact-history.ts:337-340 | a healthy board with bases 1, 2, 0, 1: the count of deleted rows is right, but event 2, a newest row above the boundary, is planned for deletion, so the comparison fails and the pass is rolled back |
| `CompactHistory.PlanCompaction` | scripts/compact-history.ts:121-233 | the loops compute exactly the specified plan, which is the policy of Policy.PlanFollowsPolicy |
| `CompactHistory.CollectRetained` | scripts/compact-history.ts:134-160 | the marks left by the loop are exactly the retained checkpoints, which are those Policy.PlanFollowsPolicy keeps |
| `CompactHistory.DeleteEventsInBatches` | scripts/compact-history.ts:317-326 | deleting in batches of 400 deletes exactly the planned rows and counts them |
| `CompactHistory.CompactDatabase` | scripts/compact-history.ts:270-352 | outcome and final tables as specified; the retention gate is closed on every path |
| `CompactHistory.RunPass` | scripts/compact-history.ts:294-343 | a pass planned on earlier tables, whatever became of the board since: it refuses a board that moved, commits exactly if every planned row was there and every target then rebuilds to what it rebuilt to at planning, and otherwise changes nothing; on a board that only gained rows and has not moved it comes out as if planned just now |
| `CompactHistory.UnmovedIsUnchanged` | scripts/compact-history.ts:297-309 | on a board whose rows are only added meanwhile, the newest event and the number of checkpoints are unchanged exactly when every row is |
| `CompactHistory.CompactBoard` | scripts/compact-history.ts:270-352 | on a reachable board the pass never fails and keeps the history invariant |
| `Sliding.SlideSkipsNothing` | shared/layout-engine.ts:52-62 | a slide only moves forward along its axis, and every position before its end is blocked |
| `Sliding.SlideEndsClear` | shared/layout-engine.ts:52-62 | with no more blockers than jumps the slide ends clear of all of them |
| `Sliding.CapIsSharp` | shared/layout-engine.ts:52-62 | one blocker more and it can end blocked: a staircase of cap + 1 blockers |
| `Sliding.OneMoreThanFiveHundred` | shared/layout-engine.ts:49-62 | 501 blockers can leave the program’s slide blocked, as 500 cannot |
| `Sliding.SlideClear` | shared/layout-engine.ts:52-62 | the loop is the specified slide; its moved flag is true exactly when the position changed |
| `Sliding.FindFreeRegion` | shared/layout-engine.ts:78-91 | in the asked direction every position before the region is blocked; when either direction will do, so is every position up to that distance in the other; up to the cap the region is clear |
| `LayoutActions.FindRegion` | shared/layout-engine.ts:78-91 | the same from the anchor asked for, or from just below the extent of what stands on the page; if the anchor is clear the region stands there |
| `LayoutActions.DefaultAnchorIsClear` | shared/layout-engine.ts:74-86 | the default anchor is clear exactly when nothing inside another shape reaches below the extent, within the gap of the region sideways and above its far edge |
| `LayoutActions.EmptyExtentIsClear` | shared/layout-engine.ts:74-86 | where nothing but arrows stands on the page and nothing is in an arrow, nothing is in the way |
| `SmallPages.DefaultAnchorIsNotAlwaysClear` | shared/layout-engine.ts:74-86 | a page whose default anchor is not clear: a shape sticks out below the one it is in |
| `Geometry.PlacerAndVerifierAgree` | shared/layout-engine.ts:274-278 | for a positive gap, the test the placer slides by and the distance the verifier measures say the same |
| `Geometry.GapIsDistance` | shared/layout-engine.ts:274-278 | two rectangles are a positive gap apart exactly when one side of the one is that far beyond the opposite side of the other |
| `Geometry.OverlapIsShared` | shared/layout-geometry.ts:120-124 | the overlap is the area of the greatest rectangle inside both, and 0 where there is none of any size |
| `Geometry.UnionIsLeastBox` | shared/layout-geometry.ts:102-112 | the union contains every rectangle and is contained in every box that does |
| `Geometry.RectUnion` | shared/layout-geometry.ts:102-112 | the running bounds are the union; nothing for no rectangles |
| `Arrange.RowMoves` | shared/layout-engine.ts:186-199 | the row is planned from the asked start at exactly the gap, each member aligned within the tallest, then dropped rigidly by the least distance at which the whole is clear; up to the cap every member ends clear |
| `Arrange.StackMoves` | shared/layout-engine.ts:202-215 | the stack is planned from the asked start at exactly the gap, each member aligned within the widest, then dropped likewise |
| `Arrange.GridMoves` | shared/layout-engine.ts:218-234 | cells start where asked and follow by the width of the widest in each column and the height of the tallest in each row plus the gaps; then dropped likewise |
| `Arrange.RowIsSpaced` | shared/layout-engine.ts:186-199 | any two members of a row, not only neighbours, are the gap apart |
| `Arrange.StackIsSpaced` | shared/layout-engine.ts:202-215 | any two members of a stack are the gap apart |
| `Arrange.GridIsSpaced` | shared/layout-engine.ts:218-234 | members in different columns are columnGap apart, in different rows rowGap apart, any two at least the smaller |
| `Arrange.ClearBlock` | shared/layout-engine.ts:171-178 | the whole block moves down rigidly by the least distance at which its union is clear, not at all unless asked to avoid collisions, and up to the cap ends clear |
| `Surroundings.RowStands` | shared/layout-engine.ts:186-199 | a row stands in a band as high as its tallest member, each aligned in it as asked, the first at the start and each the gap after the last |
| `Surroundings.StackStands` | shared/layout-engine.ts:202-215 | a stack stands likewise in a strip as wide as its widest member |
| `Surroundings.GridStands` | shared/layout-engine.ts:218-234 | the first column and row of a grid are at the start, and each follows one gap after the largest member of the one before |
| `Surroundings.OriginIsCorner` | shared/layout-engine.ts:180-183 | unless asked for, the start is at the least left and the least upper edge of the members |
| `Arrange.DistributeMoves` | shared/layout-engine.ts:153-166 | in either direction: equal gaps in order and nothing moves across; with a gap the first stays, without one both ends stay |
| `Transforms.IntoFrameIsExact` | server/layout-service.ts:98-105 | a page-space delta turned into the frame of a rotated container carries the shape by exactly that delta |
| `LayoutTree.WalkedPageIsTree` | shared/layout-geometry.ts:250-263 | on any records, parent loops included, the walk stops and lists each record once, after its parent, with the frame composed along its containers |
| `LayoutTree.LayoutListsExactlyTheReachable` | shared/layout-geometry.ts:250-263 | with unique ids the layout lists exactly the records within 31 levels of the page |
| `LayoutBounds.GroupsAreUnions` | shared/layout-geometry.ts:278-346 | in the finished layout every group is the union of the final boxes of its members, arrows and nested groups included, or empty at its own origin; every arrow ends at the final boxes of what it is bound to; every other box is the one its frame gives it |
| `LayoutBounds.ArrowsAreDrawn` | shared/layout-geometry.ts:286-333 | each arrow’s box spans its two ends, widened by the bend; an end bound to a box or an earlier arrow is at its last such binding, precise or at the edge that faces the other end |
| `Outlines.LayoutIsOutlined` | shared/layout-geometry.ts:237-357 | every box of a layout, said of the page: of a shape, the least box around its four corners as they stand once turned and placed in each container; of an arrow, around its two ends, each stored, anchored or on the border toward the other, widened by the bend; of a group, the least box around its members’ boxes, or its own origin |
| `Outlines.FramesPlace` | shared/layout-geometry.ts:128-144 | the frame of a shape places every point of it where turning and placing it in each container in turn does |
| `Outlines.EdgeFaces` | shared/layout-geometry.ts:160-167 | the edge point lies on the border of the box, thickened where it is thinner than 2, exactly in the direction of the other point |
| `Arrows.EdgeIsNear` | shared/layout-geometry.ts:160-167 | the edge point lies in the box, or at most 1 minus half a side out of a box thinner than 2 |
| `Drift.BoundsFollow` | shared/layout-geometry.ts:278-346 | when frames are carried and everything is boxed again, each box that goes with one carrier has moved by exactly its delta; which boxes do is read off the records beforehand |
| `Drift.SelfContainedGoes` | shared/layout-geometry.ts:286-346 | all of a part of the page that nothing else enters into, by binding or by containment, goes with the one carrier of its frames |
| `LayoutBounds.GroupContainsMember` | shared/layout-geometry.ts:335-346 | a group contains everything laid out in it |
| `LayoutBuilder.PageLayoutBuilder.Walk` | shared/layout-geometry.ts:253-263 | the recursive walk over the sibling lists fills order and frames as specified |
| `LayoutBuilder.PageLayoutBuilder.DrawArrows` | shared/layout-geometry.ts:286-333 | going through the arrows in paint order, the last binding of each end deciding, gives the specified boxes |
| `LayoutBuilder.PageLayoutBuilder.BoxGroups` | shared/layout-geometry.ts:335-346 | going through the groups backwards gives the specified boxes |
| `LayoutBuilder.Compute` | shared/layout-geometry.ts:237-357 | the whole computation, lists, walk, boxes, arrows and groups, is the specified layout |
| `Containment.ContainmentAgrees` | shared/layout-geometry.ts:361-381 | ancestorsOf and descendantsOf are inverse on every layout: neither depth guard ever cuts a real chain |
| `Containment.InwardIsClosed` | shared/layout-geometry.ts:361-370 | what descendantsOf finds is exactly what hangs, directly or not, under the shape |
| `MovedLayout.PageWalksAlike` | shared/layout-geometry.ts:250-263 | after a shape moved, the walk visits the same shapes and carries exactly the frames inside it |
| `Placement.TranslationIsExact` | server/layout-service.ts:98-105 | writing back a translated shape of any kind, at any depth under rotated containers, carries the frames of the shape and of everything under it by exactly its displacement and no other frame, and every box that all goes with those frames, or all not |
| `Placement.DisplacementIsExactExactlyWhen` | server/layout-service.ts:98-105 | the displacement is the delta asked for if and only if the shape is not directly in a turned arrow, whose turn the layout does not report, or the delta is zero |
| `Placement.ForecastIsExact` | shared/layout-geometry.ts:250-346 | the boxes of the recomputed layout are those made from the old layout’s frames carried, without walking the page again |
| `Spacing.PlainTranslation` | server/layout-service.ts:98-105 | where no arrow is bound across, everything under the moved shape moves by the delta and everything else stays, the groups around it excepted |
| `Certification.LandingIsClear` | shared/layout-engine.ts:111-128 | the landing is clear of every blocker and at least the gap from the target |
| `Certification.LandingIsBeside` | shared/layout-engine.ts:111-128 | the landing is in line with the target, by edges or middles as asked, past its far edge by at least the gap, and every nearer place is blocked; if the place exactly the gap past it is clear, that is where it stands |
| `Certification.PlacementIsCertified` | shared/layout-engine.ts:292-352 | after placing a shape or a group and laying out again nothing overlaps, a shape or a group that travels whole stands beside the target as Certification.LandingIsBeside says, but for a move too small to be written, and the spacing is kept if and only if that was foreseen: the target stays, or travels along and stood far enough off, and what is made from both is far enough off when boxed again in the carried frames |
| `Spacing.WholeTravels` | shared/layout-geometry.ts:286-346 | a group none of whose arrows is bound to anything elsewhere travels whole |
| `LooseTargets.LooseTargetKeepsSpacing` | shared/layout-engine.ts:292-352 | a target, made from what moves and what stays as it may be, keeps the spacing if everything it is made from, both ends of its arrows included, ends inside the box it has now |
| `Spacing.PlainSpacing` | shared/layout-engine.ts:292-352 | where no arrow is bound across, spacing is kept if and only if the target neither travels along from too near nor is a group that closes around the shape |
| `Spacing.GroupAroundClosesAgain` | shared/layout-geometry.ts:335-346 | relative to a group around the shape the spacing is kept if and only if no more than the tolerance was asked for |
| `Spacing.TiedIsTouching` | shared/layout-geometry.ts:286-346 | in every layout a group that holds an arrow bound to a box, directly or through groups, reaches that box, but for what an arrow may end outside a thin one |
| `Spacing.TiedTargetFollows` | shared/layout-engine.ts:292-352 | so relative to such a group, or to the arrow itself, a spacing above the tolerance and what an arrow may end outside a thin box is not kept; likewise for an arrow bound to a box within the shape |
| `SmallPages.PlacedBelowATiedGroup` | shared/layout-engine.ts:111-128 | a page on which the plain condition misleads: a shape in a frame in a group is placed below the group, and the group follows it by an arrow |
| `SmallPages.PlacedBelowItsOwnChild` | shared/layout-engine.ts:111-128 | a page on which that condition fails: a frame placed below its own child takes the child along, and the spacing is found not to hold |
| `SmallPages.PlacedBelowItsOwnGroup` | shared/layout-engine.ts:111-128 | the other way it fails: a member placed below its own group stays inside the group, which closes on it again |
| `LayoutActions.BlockersFor` | shared/layout-engine.ts:37-45 | the blockers are all boxes except the moving shapes, what they contain and what contains them |
| `Surroundings.BlockersAreUnrelated` | shared/layout-engine.ts:37-45 | in the way are the boxes of exactly the shapes that are no group and no arrow and are neither moved nor in nor around one that is, by following parents |
| `Surroundings.AnchorIsJustBelow` | shared/layout-engine.ts:74-86 | unless asked for, the anchor is at the leftmost left edge and the gap below the lowest lower edge of what stands on the page, and the page’s origin if nothing does |
| `LayoutActions.PlaceBeside` | shared/layout-engine.ts:111-128 | the move that puts the shape beside the target, in line with it at the nearest place that is not blocked, or which error |
| `LayoutActions.VerifyLayout` | shared/layout-engine.ts:292-352 | no overlap is reported if and only if there is none, spacing ok if and only if every pair and every two touched shapes are far enough apart, alignment ok if and only if the lines compared differ by no more than the tolerance |
| `LayoutActions.MaxDeviation` | shared/layout-engine.ts:328-341 | the reported deviation bounds the difference of any two of the lines compared and is the difference of some two |
| `LayoutActions.MinimumGap` | shared/layout-engine.ts:321-325 | the smallest gap over the pairs that are both on the page |
| `LayoutActions.PlaceAndVerify` | server/canvas-api.ts:451-503 | check, place, write, lay out again, verify: refused only for what the rules name, the landing in line at the nearest place that is not blocked, an overlap never reported, and the spacing exactly as foreseen |
| `BatchMoves.MovesAreRealised` | server/canvas-api.ts:518-531 | a list of moves, each turned by the layout from before the first, carries every frame under a moved shape by exactly its own delta and no other frame, and leads to exactly the boxes foreseen from that |
| `BatchMoves.WholeIsRigid` | shared/layout-geometry.ts:286-346 | a member none of whose arrows is bound to anything elsewhere lands rigidly, a group included |
| `BatchMoves.BlockersStand` | shared/layout-engine.ts:37-45 | what blocked the moving shapes stands unchanged after they were written |
| `BatchMoves.ArrangementIsRealised` | shared/layout-engine.ts:171-178 | rigid members planned a gap apart, or clear of the blockers, are found so in the recomputed layout |
| `BatchMoves.WriteMoves` | server/canvas-api.ts:518-531 | the loop over moves, skipping those too small, is the specified fold |
| `Arrangements.ArrangementVerdict` | shared/layout-engine.ts:292-352 | once a planned arrangement is written, an overlap is found if and only if, as could be told before the write, some member was to land on what is inside or around another member but not its own; spacing is kept if and only if the boxes foreseen keep it, and they do if every member is rigid |
| `Arrangements.TiedMembersTouch` | shared/layout-engine.ts:292-352 | of two members one of which holds an arrow bound to the other, a box, the boxes foreseen never keep a spacing above the tolerance and that slack |
| `Arrangements.ArrangeRow` | server/canvas-api.ts:472-476 | the row action end to end: refused exactly when its members cannot be moved together, and for a reason that holds; otherwise planned and dropped as a row of the distinct ids in order, with overlaps, spacing and alignment reported exactly as could be foreseen |
| `Arrangements.ArrangeStack` | server/canvas-api.ts:477-481 | the stack action end to end, with the same verdict |
| `Arrangements.ArrangeGrid` | server/canvas-api.ts:482-489 | the grid action end to end, asked for the smaller of the two gaps, with the same verdict |
| `LayoutActions.CheckMovable` | server/canvas-api.ts:507-516 | ids can be moved together exactly when each is on the page, is neither an arrow nor locked, and is inside none of the others; otherwise one that breaks a rule is named with the rule |
| `SmallPages.RowInAFrame` | shared/layout-engine.ts:37-45 | a row of a shape in a frame and one from outside lands the second inside the frame, and the verifier finds the overlap |
| `SmallPages.RowOntoWhatJutsOut` | shared/layout-engine.ts:37-45 | a row whose first member holds a shape sticking out of it lands the second on that shape |
| `SmallPages.RowOfATiedGroup` | shared/layout-engine.ts:186-199 | a row of a shape and a group holding an arrow bound to it: planned the gap apart and found touching |
| `RateLimiter.SlidingWindowRateLimiter.Allow` | server/security.ts:76-87 | grants exactly when the log of every grant ever made allows it, and records the grant |
| `RateLimiter.SlidingWindowRateLimiter.WouldAllow` | server/security.ts:90-93 | the same answer without recording |
| `RateLimiter.SlidingWindowRateLimiter.Prune` | server/security.ts:95-100 | drops exactly the keys with nothing left in the window and changes no answer |
| `RateLimiter.NoWindowHoldsMore` | server/security.ts:76-87 | no window of the limiter’s length, wherever it starts, holds more grants than the limit |
| `RateLimiter.GrantedWhileThereIsRoom` | server/security.ts:76-87 | a grant is given exactly while fewer than the limit were given in the window that ends now |
| `RateLimiter.LimitHolds` | server/security.ts:72-101 | the same for the log of any limiter in use |
| `RateLimiter.Spend` | server/app.ts:592-600 | both budgets are charged or neither is, and which limit refused is told exactly |
| `Retention.PruningEarlyIsHarmless` | scripts/backup-canvas-data.py:216-233 | any newer archives before a list of which at least the kept part survived keep what they would keep before the whole list |
| `Retention.PruningEachTimeIsPruningOnce` | scripts/backup-canvas-data.py:216-249 | pruning after every backup leaves what pruning once after the last would leave |
| `Retention.RetentionIsIdempotent` | scripts/backup-canvas-data.py:216-249 | retention run on what it left removes nothing |
| `Retention.NewcomersOnlyDisplace` | scripts/backup-canvas-data.py:216-233 | a newer archive never brings a dropped one back |
| `Retention.AtMostTwentyFive` | scripts/backup-canvas-data.py:216-233 | at most 25 archives are kept where a week has at most seven days: the two newest weeks are reached by the fourteen days, so they add nothing |
| `Retention.AtMostTwentySix` | scripts/backup-canvas-data.py:216-233 | at most 26 archives are kept for any day, week and month functions whatever, the newest among them |
| `Retention.KeepIsUnion` | scripts/backup-canvas-data.py:216-233 | what is kept is the newest archive and what each bucket keeps, and nothing else |
| `Generations.KeptExactly` | scripts/backup-canvas-data.py:216-233 | an archive is kept exactly if it is the newest of all, or the newest of one of the fourteen newest days, the eight newest weeks or the six newest months there are archives of |
| `Generations.FilteringKeeps` | scripts/backup-canvas-data.py:236-249 | what is kept stays as often as it was there and in its order, and nothing else does |
| `Retention.FillBucket` | scripts/backup-canvas-data.py:227-232 | the scan with its early break keeps the newest archive of each of the newest periods |
| `Retention.RetentionKeep` | scripts/backup-canvas-data.py:216-233 | the loops over the buckets compute the specified set |
| `Retention.BackupDirectory.ApplyRetention` | scripts/backup-canvas-data.py:236-249 | removes exactly what is not kept, with its checksum file; a dry run only reports |
| `Retention.RunBackups` | scripts/backup-canvas-data.py:236-249 | a directory after any run of backups, each pruned, is the directory pruned once |
| `Accounts.EveryRunIsSound` | server/auth.ts:405-476 | in every run from an empty service each board has exactly one owner membership, its owner’s; exactly one administrator exists once anyone does; no invitation is both used and revoked |
| `Accounts.StepKeepsSound` | server/auth.ts:405-857 | each account operation keeps those invariants |
| `Accounts.RunsEvolve` | server/auth-db.ts:576-588 | across any run ownership never moves, nobody disappears, and an invitation once used or revoked never changes again |
| `Accounts.StandingChangesOnlyByRight` | server/auth.ts:642-840 | a standing on a board changes only by its owner, or by the person concerned using the owner’s open invitation, which raises the role and never to owner |
| `Entitlements.DoneExactlyWhenAllowed` | server/auth.ts:405-857 | each of the nine commands goes through exactly when it is allowed, in terms of the rows; otherwise nothing changes and what it is refused for is so |
| `Entitlements.AllowedIsEffected` | server/auth.ts:405-857 | an allowed command has its effect and no other: an invitation used is marked with user and time and leaves the user in the higher of the role granted and the role held, every other membership unchanged; a role set, a removal, a revocation or a disabling is there afterwards |
| `AuthService.AuthService.ConsumeRow` | server/auth-db.ts:576-581 | the guarded update marks the row only while it is neither used, revoked nor expired |
| `AuthService.AuthService.RegisterInternal` | server/auth.ts:405-476 | registration and bootstrap with every refusal in order; the first user is the administrator; through exactly if allowed and with the whole of its effect, else nothing changed and a reason that is so; sound tables stay sound, nothing settled changes, no standing changes but by right |
| `AuthService.AuthService.CreateBoard` | server/auth.ts:546-560 | a new board with its owner’s membership; through exactly if allowed and with the whole of its effect, else nothing changed and a reason that is so; sound tables stay sound, nothing settled changes, no standing changes but by right |
| `AuthService.AuthService.AdoptLegacyBoards` | server/auth.ts:563-585 | adopts exactly the boards not there yet; through exactly if allowed and with the whole of its effect, else nothing changed and a reason that is so; sound tables stay sound, nothing settled changes, no standing changes but by right |
| `AuthService.AuthService.SetBoardMemberRole` | server/auth.ts:642-674 | owner only, never the owner’s own role, one membership changed; through exactly if allowed and with the whole of its effect, else nothing changed and a reason that is so; sound tables stay sound, nothing settled changes, no standing changes but by right |
| `AuthService.AuthService.CreateInvitation` | server/auth.ts:676-724 | never an owner role, a board invitation only from its owner; through exactly if allowed and with the whole of its effect, else nothing changed and a reason that is so; sound tables stay sound, nothing settled changes, no standing changes but by right |
| `AuthService.AuthService.ConsumeInvitation` | server/auth.ts:726-741 | consumes and grants together or refuses and changes nothing; through exactly if allowed and with the whole of its effect, else nothing changed and a reason that is so; sound tables stay sound, nothing settled changes, no standing changes but by right |
| `AuthService.AuthService.RevokeInvitation` | server/auth.ts:743-757 | revokes only what is neither used nor revoked; through exactly if allowed and with the whole of its effect, else nothing changed and a reason that is so; sound tables stay sound, nothing settled changes, no standing changes but by right |
| `AuthService.AuthService.SetUserDisabled` | server/auth.ts:770-784 | administrators only, never themselves; through exactly if allowed and with the whole of its effect, else nothing changed and a reason that is so; sound tables stay sound, nothing settled changes, no standing changes but by right |
| `ActionBatch.BatchKeepsConsistent` | server/canvas-api.ts:313-376 | throughout any batch the running index is exactly the page’s shapes, every binding has both its shapes and every relation its entity |
| `ActionBatch.StepKeepsConsistent` | server/canvas-api.ts:325-371 | each action keeps that |
| `ActionEffects.ActionsDoAsAsked` | server/canvas-api.ts:156-371 | each action goes through exactly when the records allow it, and then the shape has the position, text or size asked for, the arrow its bindings, the entity its content or relations, and every other record is as it was |
| `ActionBatch.EntityPut` | server/canvas-api.ts:156-205 | storing an entity under whatever id its free fields leave it with breaks no relation |
| `ActionBatch.ConnectThenDelete` | server/canvas-api.ts:328-358 | deleting a freshly drawn connection leaves store and index as they were |
| `ActionBatch.LinkThenUnlink` | server/canvas-api.ts:207-225 | removing a relation just added restores the entity |
| `ActionBatch.CreatedOnTop` | server/canvas-api.ts:330-336 | a new shape is painted above everything on the page |
| `ActionBatch.BatchInterpreter.ConnectWithBindings` | server/canvas-api.ts:328-345 | arrow and both bindings, or failure |
| `ActionBatch.BatchInterpreter.DeleteWithBindings` | server/canvas-api.ts:349-358 | the shape and exactly the bindings touching it |
| `ActionBatch.BatchInterpreter.WritePositions` | server/canvas-api.ts:518-531 | positions written to the store and, for shapes directly on the page, to the index |
| `ActionBatch.ApplyRoomActions` | server/canvas-api.ts:313-376 | the batch is committed when every action goes through, its arrows then re-routed, otherwise the board is as it was; consistent either way |
| `ActionBatch.ReroutingKeeps` | server/canvas-api.ts:536-543 | re-routing arrows keeps every binding at existing shapes and every relation at existing entities |
| `ActionBatch.ReroutingMovesOnlyArrows` | server/canvas-api.ts:536-543 | re-routing touches no record but arrows of the page |
| `ActionBatch.ReroutingFollowsRoutes` | server/canvas-api.ts:536-543 | an arrow of the page runs as its last route says, in its old place in the painting order, and records without a route are as they were |

## Left out

History
- SQL, WAL, VACUUM, backup freshness and integrity checks: tables are sequences with increasing ids, a transaction is one atomic step.
- The size limits of identifiers, JSON cloning and the check that a record carries its own id: records are keyed, so the mismatch cannot be written down.
- How an event type and a coalescing key are derived from the changes: both are parameters of the transaction.
- The order of documents inside a snapshot, and per-record clocks after merging: document maps are compared.
- Digests: the pass compares snapshots themselves, so a collision is not modelled.
- Timestamp targets after compaction: they may resolve to an earlier survivor by design, and nothing is claimed about them.
- The scheduling of the flush timer: a due flush, a forced flush and a restart may each happen at any moment of a run.
- The account audit reader and its cursor table: the steps of a page of audit events are modelled, not where the page comes from.
- Reporting figures of the compaction plan, such as totals and the oldest detailed event.

Layout
- Arrows.EdgePoint: leaves every shape as a rectangle; the ellipse's edge point, which takes a square root, is not modelled. What is proved of boxes in `LayoutBounds` and `Drift` holds for any edge function.
- The report on how far an arrow's ends are from what they connect.
- Text measurement, where a size came from and whether it is verified: a shape's unrotated box is given.
- Floating point, sine and cosine, and rounding in reports.
- Sibling lists are given in paint order: sorting them is not modelled.
- Arrange.DistributeMoves: takes the members in order along its axis; sorting them is not modelled.
- LayoutActions.VerifyLayout: does not model the list of shapes with estimated sizes, nor the status drawn from it.
- Arrangements.ArrangeRow: gives the verdict for at most 500 blockers, a gap not below the spacing tolerance (a move under 0.001 is not written, so touching members may end overlapping by as much), collision avoidance asked for and no member directly in a turned arrow; otherwise only the plan and the drop are stated. The same holds for the stack and the grid.
- The align action, whose moves are one subtraction each, and the distribute action end to end, which avoids nothing.

Limits, backups, accounts, batches
- RateLimiter.SlidingWindowRateLimiter.Allow: requires that the clock never runs backwards; under a clock that does, forgotten attempts would be missed.
- Retention.RunBackups: takes each archive to be newer than those before it; parsing names into times is not modelled, and the calendar is a parameter.
- Passwords, sessions, tokens and their hashes, input cleaning and the account audit log: a token is its hash, a fresh id or token that already exists is refused.
- Schema validation of shapes and entities, entity sizes and audit stamps in the batch interpreter; a record fails to be written only for the reasons modelled.
- ActionBatch.ApplyRoomActions: which arrows a batch re-routes and to what ends are parameters.
- ActionBatch.BatchInterpreter.WritePositions: positions of layout actions are given; `BatchMoves.WriteMoves` says how they are computed.
- HTTP routes, room sockets, the web client and the worker.
