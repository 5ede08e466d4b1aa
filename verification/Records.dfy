/** Records, record changes and their replay: the vocabulary of the board history. */
module Records {
  import opened Wrappers

  type Id = string

  /** A complete tldraw record. Its id is the key it is stored under; the rest is compared structurally. */
  datatype Record = Record(typeName: string, content: string)

  type Docs = map<Id, Record>

  /** A replayable mutation: both sides are whole records, None stands for absence. */
  datatype Change = Change(recordId: Id, before: Option<Record>, after: Option<Record>)

  function Lookup(d: Docs, id: Id): Option<Record> {
    if id in d then Some(d[id]) else None
  }

  function Write(d: Docs, id: Id, r: Option<Record>): Docs {
    if r.Some? then d[id := r.value] else d - {id}
  }

  /** Applies the changes in order; None as soon as one `before` does not match what is there. */
  function Replay(d: Docs, cs: seq<Change>): Option<Docs>
    decreases |cs|
  {
    if cs == [] then Some(d)
    else if Lookup(d, cs[0].recordId) != cs[0].before then None
    else Replay(Write(d, cs[0].recordId, cs[0].after), cs[1..])
  }

  function Ids(cs: seq<Change>): set<Id> {
    set c | c in cs :: c.recordId
  }

  ghost predicate DistinctIds(cs: seq<Change>) {
    forall i, j :: 0 <= i < j < |cs| ==> cs[i].recordId != cs[j].recordId
  }

  /** Every change really changes its record. */
  predicate Effective(cs: seq<Change>) {
    forall c :: c in cs ==> c.before != c.after
  }

  /** The sides of every listed change are what `a` and `b` hold, and `a` and `b` agree everywhere else. */
  ghost predicate Bridges(a: Docs, b: Docs, cs: seq<Change>) {
    && (forall c :: c in cs ==> Lookup(a, c.recordId) == c.before && Lookup(b, c.recordId) == c.after)
    && (forall id :: id !in Ids(cs) ==> Lookup(a, id) == Lookup(b, id))
  }

  /** `cs` is exactly the difference between `a` and `b`: one effective change for each record that differs. */
  ghost predicate IsDiff(a: Docs, b: Docs, cs: seq<Change>) {
    DistinctIds(cs) && Effective(cs) && Bridges(a, b, cs)
  }

  function Inverse(cs: seq<Change>): seq<Change> {
    seq(|cs|, i requires 0 <= i < |cs| => Change(cs[i].recordId, cs[i].after, cs[i].before))
  }

  lemma SameLookupsSameDocs(a: Docs, b: Docs)
    requires forall id :: Lookup(a, id) == Lookup(b, id)
    ensures a == b
  {
    assert forall id :: id in a <==> Lookup(a, id).Some?;
    assert forall id :: id in b <==> Lookup(b, id).Some?;
    forall id | id in a
      ensures id in b && a[id] == b[id]
    {
      assert Lookup(a, id) == Lookup(b, id);
    }
  }

  lemma {:induction false} ReplayConcat(d: Docs, xs: seq<Change>, ys: seq<Change>)
    ensures Replay(d, xs + ys) ==
            (if Replay(d, xs).Some? then Replay(Replay(d, xs).value, ys) else None)
    decreases |xs|
  {
    if xs == [] {
      assert xs + ys == ys;
    } else {
      assert (xs + ys)[0] == xs[0] && (xs + ys)[1..] == xs[1..] + ys;
      ReplayConcat(Write(d, xs[0].recordId, xs[0].after), xs[1..], ys);
    }
  }

  /**
   * For a list with one change per record, replay is order-free: it turns `a` into `b` exactly when
   * the list bridges the two maps.
   */
  lemma {:induction false} ReplayIffBridges(a: Docs, b: Docs, cs: seq<Change>)
    requires DistinctIds(cs)
    ensures Replay(a, cs) == Some(b) <==> Bridges(a, b, cs)
    decreases |cs|
  {
    if cs == [] {
      if Bridges(a, b, cs) {
        SameLookupsSameDocs(a, b);
      }
    } else {
      var c, rest := cs[0], cs[1..];
      var mid := Write(a, c.recordId, c.after);
      ReplayIffBridges(mid, b, rest);
      assert forall x :: x in cs <==> x == c || x in rest;
      assert Ids(cs) == {c.recordId} + Ids(rest);
      assert c.recordId !in Ids(rest);
      assert forall id :: id != c.recordId ==> Lookup(mid, id) == Lookup(a, id);
      if Replay(a, cs) == Some(b) {
        assert Bridges(mid, b, rest);
        assert Lookup(b, c.recordId) == Lookup(mid, c.recordId) == c.after;
        forall x | x in cs
          ensures Lookup(a, x.recordId) == x.before && Lookup(b, x.recordId) == x.after
        {
          if x != c { assert x.recordId in Ids(rest); }
        }
        assert Bridges(a, b, cs);
      }
      if Bridges(a, b, cs) {
        assert c in cs;
        forall x | x in rest
          ensures Lookup(mid, x.recordId) == x.before && Lookup(b, x.recordId) == x.after
        {
          assert x in cs && x.recordId in Ids(rest);
        }
        forall id | id !in Ids(rest)
          ensures Lookup(mid, id) == Lookup(b, id)
        {
          if id != c.recordId { assert id !in Ids(cs); }
        }
        assert Bridges(mid, b, rest);
      }
    }
  }

  /** Diff and replay are inverse: an effective list with distinct ids replays `a` to `b` iff it is their diff. */
  lemma ReplayIffDiff(a: Docs, b: Docs, cs: seq<Change>)
    requires DistinctIds(cs) && Effective(cs)
    ensures Replay(a, cs) == Some(b) <==> IsDiff(a, b, cs)
  {
    ReplayIffBridges(a, b, cs);
  }

  /** A diff run backwards is the reverse diff, so it takes `b` back to `a`. */
  lemma DiffReverses(a: Docs, b: Docs, cs: seq<Change>)
    requires IsDiff(a, b, cs)
    ensures IsDiff(b, a, Inverse(cs))
    ensures Replay(a, cs) == Some(b) && Replay(b, Inverse(cs)) == Some(a)
  {
    var back := Inverse(cs);
    forall c | c in back
      ensures Lookup(b, c.recordId) == c.before && Lookup(a, c.recordId) == c.after && c.before != c.after
    {
      var i :| 0 <= i < |back| && back[i] == c;
      assert cs[i] in cs;
    }
    forall c | c in cs
      ensures c.recordId in Ids(back)
    {
      var i :| 0 <= i < |cs| && cs[i] == c;
      assert back[i] in back;
    }
    ReplayIffDiff(a, b, cs);
    ReplayIffDiff(b, a, back);
  }

  /** The diff of two document maps lists exactly the records on which they differ, and determines each side. */
  lemma DiffIsMinimal(a: Docs, b: Docs, cs: seq<Change>)
    requires IsDiff(a, b, cs)
    ensures forall id :: id in Ids(cs) <==> Lookup(a, id) != Lookup(b, id)
    ensures cs == [] <==> a == b
  {
    forall id
      ensures id in Ids(cs) <==> Lookup(a, id) != Lookup(b, id)
    {
      if id in Ids(cs) {
        var c :| c in cs && c.recordId == id;
      }
    }
    if cs == [] {
      SameLookupsSameDocs(a, b);
    } else {
      assert cs[0] in cs;
    }
  }

  /** `cs` is the diff of `a` and `b` as far as the keys outside `pending` are concerned. */
  ghost predicate IsDiffExcept(a: Docs, b: Docs, cs: seq<Change>, pending: set<Id>) {
    && DistinctIds(cs)
    && Effective(cs)
    && (forall c :: c in cs ==> Lookup(a, c.recordId) == c.before && Lookup(b, c.recordId) == c.after)
    && Ids(cs) !! pending
    && (forall id :: id !in Ids(cs) && id !in pending ==> Lookup(a, id) == Lookup(b, id))
  }

  lemma DiffOneMoreKey(a: Docs, b: Docs, cs: seq<Change>, pending: set<Id>, id: Id)
    requires IsDiffExcept(a, b, cs, pending) && id in pending
    ensures var c := Change(id, Lookup(a, id), Lookup(b, id));
            IsDiffExcept(a, b, if c.before != c.after then cs + [c] else cs, pending - {id})
  {
    var c := Change(id, Lookup(a, id), Lookup(b, id));
    if c.before != c.after {
      assert forall x :: x in cs + [c] <==> x in cs || x == c;
      assert Ids(cs + [c]) == Ids(cs) + {id};
      forall i, j | 0 <= i < j < |cs + [c]|
        ensures (cs + [c])[i].recordId != (cs + [c])[j].recordId
      {
        assert cs[i].recordId in Ids(cs);
      }
    }
  }

  /** The keys of both maps are walked one by one; a record is reported when its two sides differ. */
  method ChangesBetween(before: Docs, after: Docs) returns (changes: seq<Change>)
    ensures IsDiff(before, after, changes)
    ensures ValidChanges(changes)
  {
    changes := [];
    var pending := before.Keys + after.Keys;
    while pending != {}
      invariant IsDiffExcept(before, after, changes, pending)
      decreases |pending|
    {
      var id :| id in pending;
      DiffOneMoreKey(before, after, changes, pending, id);
      var c := Change(id, Lookup(before, id), Lookup(after, id));
      if c.before != c.after {
        changes := changes + [c];
      }
      pending := pending - {id};
    }
  }

  /** What validateChanges refuses: a change with two absent sides. */
  predicate ValidChanges(cs: seq<Change>) {
    forall c :: c in cs ==> c.before.Some? || c.after.Some?
  }
}
