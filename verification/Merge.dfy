/** Coalescing of several change groups into one, as done when pending human edits become an event. */
module Merge {
  import opened Records

  function Flatten(groups: seq<seq<Change>>): seq<Change>
    decreases |groups|
  {
    if groups == [] then [] else groups[0] + Flatten(groups[1..])
  }

  /** Position of the change for `id`, or |m|. */
  function IndexOf(m: seq<Change>, id: Id): (i: nat)
    ensures i <= |m|
    ensures i < |m| ==> m[i].recordId == id
    ensures forall j :: 0 <= j < i ==> m[j].recordId != id
    decreases |m|
  {
    if m == [] || m[0].recordId == id then 0 else 1 + IndexOf(m[1..], id)
  }

  /**
   * One step on the insertion-ordered table of merged changes: a known record keeps its first `before`
   * and takes the new `after`; an entry whose two sides became equal is dropped.
   */
  function MergeStep(m: seq<Change>, c: Change): seq<Change> {
    var i := IndexOf(m, c.recordId);
    var next := if i < |m| then Change(c.recordId, m[i].before, c.after) else c;
    if next.before == next.after then
      if i < |m| then m[..i] + m[i + 1..] else m
    else
      if i < |m| then m[i := next] else m + [next]
  }

  function MergeOnto(m: seq<Change>, cs: seq<Change>): seq<Change>
    decreases |cs|
  {
    if cs == [] then m else MergeOnto(MergeStep(m, cs[0]), cs[1..])
  }

  function Merged(groups: seq<seq<Change>>): seq<Change> {
    MergeOnto([], Flatten(groups))
  }

  lemma {:induction false} FlattenConcat(xs: seq<seq<Change>>, ys: seq<seq<Change>>)
    ensures Flatten(xs + ys) == Flatten(xs) + Flatten(ys)
    decreases |xs|
  {
    if xs == [] {
      assert xs + ys == ys;
    } else {
      assert (xs + ys)[0] == xs[0] && (xs + ys)[1..] == xs[1..] + ys;
      FlattenConcat(xs[1..], ys);
    }
  }

  lemma {:induction false} MergeOntoConcat(m: seq<Change>, xs: seq<Change>, ys: seq<Change>)
    ensures MergeOnto(m, xs + ys) == MergeOnto(MergeOnto(m, xs), ys)
    decreases |xs|
  {
    if xs == [] {
      assert xs + ys == ys;
    } else {
      assert (xs + ys)[0] == xs[0] && (xs + ys)[1..] == xs[1..] + ys;
      MergeOntoConcat(MergeStep(m, xs[0]), xs[1..], ys);
    }
  }

  /** The entry a step would leave behind for the record of `c`. */
  function NetChange(m: seq<Change>, c: Change): Change {
    var i := IndexOf(m, c.recordId);
    if i < |m| then Change(c.recordId, m[i].before, c.after) else c
  }

  lemma RemovedAt(m: seq<Change>, i: nat)
    requires DistinctIds(m) && i < |m|
    ensures DistinctIds(m[..i] + m[i + 1..])
    ensures forall x :: x in m[..i] + m[i + 1..] <==> x in m && x.recordId != m[i].recordId
  {
    var r := m[..i] + m[i + 1..];
    forall x | x in m && x.recordId != m[i].recordId
      ensures x in r
    {
      var j :| 0 <= j < |m| && m[j] == x;
      assert r[if j < i then j else j - 1] == x;
    }
  }

  lemma ReplacedAt(m: seq<Change>, i: nat, c: Change)
    requires DistinctIds(m) && i < |m| && c.recordId == m[i].recordId
    ensures DistinctIds(m[i := c])
    ensures forall x :: x in m[i := c] <==> x == c || (x in m && x.recordId != c.recordId)
  {
    var r := m[i := c];
    assert r[i] == c;
    forall x | x in m && x.recordId != c.recordId
      ensures x in r
    {
      var j :| 0 <= j < |m| && m[j] == x;
      assert r[j] == x;
    }
  }

  /** A step keeps one entry per record, keeps every other record's entry, and keeps the net change if there is one. */
  lemma MergeStepMembers(m: seq<Change>, c: Change)
    requires DistinctIds(m)
    ensures DistinctIds(MergeStep(m, c))
    ensures forall x :: x in MergeStep(m, c) <==>
              (x in m && x.recordId != c.recordId) || (x == NetChange(m, c) && x.before != x.after)
  {
    var i := IndexOf(m, c.recordId);
    if i < |m| {
      RemovedAt(m, i);
      ReplacedAt(m, i, NetChange(m, c));
    }
  }

  /** Only the record of `c` can appear in or drop out of the table in one step. */
  lemma MergeStepIds(m: seq<Change>, c: Change)
    requires DistinctIds(m)
    ensures forall k :: k != c.recordId ==> (k in Ids(m) <==> k in Ids(MergeStep(m, c)))
    ensures NetChange(m, c).before != NetChange(m, c).after ==> c.recordId in Ids(MergeStep(m, c))
  {
    var r := MergeStep(m, c);
    MergeStepMembers(m, c);
    forall k | k != c.recordId
      ensures k in Ids(m) <==> k in Ids(r)
    {
      assert forall x: Change :: x.recordId == k ==> (x in m <==> x in r);
    }
    if NetChange(m, c).before != NetChange(m, c).after {
      assert NetChange(m, c) in r;
    }
  }

  /** The net change runs from what `start` holds for the record to what `c` leaves there. */
  lemma NetChangeSides(start: Docs, now: Docs, m: seq<Change>, c: Change)
    requires IsDiff(start, now, m) && Lookup(now, c.recordId) == c.before
    ensures NetChange(m, c) == Change(c.recordId, Lookup(start, c.recordId), c.after)
  {
    var i := IndexOf(m, c.recordId);
    if i < |m| {
      assert m[i] in m;
    } else {
      assert c.recordId !in Ids(m);
    }
  }

  /** The table built so far, seen as a diff from `start`, follows the document map one change further. */
  lemma MergeStepIsDiff(start: Docs, now: Docs, m: seq<Change>, c: Change)
    requires IsDiff(start, now, m)
    requires Lookup(now, c.recordId) == c.before
    ensures IsDiff(start, Write(now, c.recordId, c.after), MergeStep(m, c))
  {
    var next := Write(now, c.recordId, c.after);
    var r := MergeStep(m, c);
    MergeStepMembers(m, c);
    MergeStepIds(m, c);
    NetChangeSides(start, now, m, c);
    forall x | x in r
      ensures Lookup(start, x.recordId) == x.before && Lookup(next, x.recordId) == x.after && x.before != x.after
    {
      if x.recordId != c.recordId {
        assert x in m;
      }
    }
    forall k | k !in Ids(r)
      ensures Lookup(start, k) == Lookup(next, k)
    {
      if k != c.recordId {
        assert Lookup(next, k) == Lookup(now, k);
      }
    }
  }

  lemma {:induction false} MergeOntoIsDiff(start: Docs, now: Docs, m: seq<Change>, cs: seq<Change>)
    requires IsDiff(start, now, m)
    requires Replay(now, cs).Some?
    ensures IsDiff(start, Replay(now, cs).value, MergeOnto(m, cs))
    decreases |cs|
  {
    if cs != [] {
      MergeStepIsDiff(start, now, m, cs[0]);
      MergeOntoIsDiff(start, Write(now, cs[0].recordId, cs[0].after), MergeStep(m, cs[0]), cs[1..]);
    }
  }

  /**
   * Merging preserves meaning: whenever the groups replay one after the other, the merged list replays
   * too, to the same document map, and it is exactly the net difference: nothing that was created and
   * deleted, or edited and undone, is left in it.
   */
  lemma MergePreservesMeaning(start: Docs, groups: seq<seq<Change>>)
    requires Replay(start, Flatten(groups)).Some?
    ensures Replay(start, Merged(groups)) == Replay(start, Flatten(groups))
    ensures IsDiff(start, Replay(start, Flatten(groups)).value, Merged(groups))
  {
    assert IsDiff(start, start, []);
    MergeOntoIsDiff(start, start, [], Flatten(groups));
    ReplayIffDiff(start, Replay(start, Flatten(groups)).value, Merged(groups));
  }

  lemma {:induction false} MergeOntoValid(m: seq<Change>, cs: seq<Change>)
    requires DistinctIds(m) && Effective(m)
    ensures DistinctIds(MergeOnto(m, cs)) && Effective(MergeOnto(m, cs))
    decreases |cs|
  {
    if cs != [] {
      MergeStepMembers(m, cs[0]);
      MergeOntoValid(MergeStep(m, cs[0]), cs[1..]);
    }
  }

  /**
   * Whatever is merged, replayable or not, the result names each record once and never has two equal
   * sides; in particular it passes the validation that guards event insertion.
   */
  lemma MergedIsWellFormed(groups: seq<seq<Change>>)
    ensures DistinctIds(Merged(groups)) && Effective(Merged(groups)) && ValidChanges(Merged(groups))
  {
    MergeOntoValid([], Flatten(groups));
  }

  method MergeChanges(groups: seq<seq<Change>>) returns (merged: seq<Change>)
    ensures merged == Merged(groups)
    ensures DistinctIds(merged) && Effective(merged) && ValidChanges(merged)
    ensures forall start :: Replay(start, Flatten(groups)).Some? ==>
              Replay(start, merged) == Replay(start, Flatten(groups))
  {
    merged := [];
    for g := 0 to |groups|
      invariant merged == MergeOnto([], Flatten(groups[..g]))
    {
      var changes := groups[g];
      ghost var before := Flatten(groups[..g]);
      assert before + changes[..0] == before;
      for k := 0 to |changes|
        invariant merged == MergeOnto([], before + changes[..k])
      {
        assert before + changes[..k + 1] == (before + changes[..k]) + [changes[k]];
        MergeOntoConcat([], before + changes[..k], [changes[k]]);
        merged := MergeStep(merged, changes[k]);
      }
      assert changes[..|changes|] == changes;
      assert groups[..g + 1] == groups[..g] + [changes];
      FlattenConcat(groups[..g], [changes]);
      assert Flatten([changes]) == changes;
    }
    assert groups[..|groups|] == groups;
    MergedIsWellFormed(groups);
    forall start | Replay(start, Flatten(groups)).Some?
      ensures Replay(start, merged) == Replay(start, Flatten(groups))
    {
      MergePreservesMeaning(start, groups);
    }
  }
}
