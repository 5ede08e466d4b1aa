/** What each action of a batch does to the records, in terms of the records: when it goes through, and what is then different. */
module ActionEffects {
  import opened ActionBatch

  predicate IsShape(store: Store, id: Id) {
    id in store && store[id].ShapeRecord?
  }

  predicate ShapeOfPage(store: Store, pageId: Id, id: Id) {
    IsShape(store, id) && store[id].parentId == pageId
  }

  /** Where an entity whose id may be overridden ends up. */
  function Destination(id: Id, fields: Fields): Id {
    match fields.newId
    case None => id
    case Some(at) => at
  }

  /* --------------------------------------------------------------------------- when */

  ghost predicate Possible(pageId: Id, b: Batch, a: Action) {
    match a
    case CreateShape(id, _, _, _) => id.ShapeId? && id !in b.store
    case ConnectShapes(id, _, _, _, fromId, toId) =>
      && id.ShapeId? && id !in b.store && ShapeOfPage(b.store, pageId, fromId) && ShapeOfPage(b.store, pageId, toId)
      && BindingId(id.name + "_start") !in b.store && BindingId(id.name + "_end") !in b.store
    case DeleteShape(id) => ShapeOfPage(b.store, pageId, id)
    case MoveShape(id, _, _) => ShapeOfPage(b.store, pageId, id)
    case UpdateText(id, _) => ShapeOfPage(b.store, pageId, id) && (b.store[id].body.kind == Geo || b.store[id].body.kind == Text || b.store[id].body.kind == Note)
    case ResizeShape(id, _, _) => ShapeOfPage(b.store, pageId, id) && (b.store[id].body.kind == Geo || b.store[id].body.kind == Frame)
    case ApplyLayout(writes) => forall w :: w in writes ==> IsShape(b.store, w.id)
    case CreateEntity(id, _, _, fields) => id !in b.store && b.entityCount < 2000 && Destination(id, fields).EntityId?
    case UpdateEntity(id, _, fields) =>
      && IsEntity(b.store, id) && Destination(id, fields).EntityId?
      && (|b.store[id].relations| <= 20 || fields.emptiesRelations)
    case LinkEntities(id, kind, target) => Linkable(b.store, id, Relation(kind, target))
    case UnlinkEntities(id, kind, target) =>
      IsEntity(b.store, id) && |b.store[id].relations| - multiset(b.store[id].relations)[Relation(kind, target)] <= 20
    case AttachEvidence(id, evidenceId) =>
      && IsEntity(b.store, evidenceId) && b.store[evidenceId].entityType == "evidence"
      && Linkable(b.store, id, Relation("supported_by", evidenceId))
  }

  /** Both are entities, and they are related already or there is room for one more relation. */
  ghost predicate Linkable(store: Store, id: Id, r: Relation) {
    IsEntity(store, id) && IsEntity(store, r.target) && (r in store[id].relations || |store[id].relations| < 20)
  }

  /* --------------------------------------------------------------------------- what */

  ghost predicate OthersStay(store: Store, store': Store, ids: set<Id>) {
    forall k :: k !in ids ==> (k in store' <==> k in store) && (k in store ==> store'[k] == store[k])
  }

  /** On the page, as asked, and painted after everything that was on it. */
  ghost predicate Drawn(pageId: Id, store: Store, store': Store, id: Id, x: real, y: real, body: Body) {
    && ShapeOfPage(store', pageId, id) && store'[id].x == x && store'[id].y == y && store'[id].body == body
    && forall k :: ShapeOfPage(store, pageId, k) ==> store[k].index < store'[id].index
  }

  /** In its place on the page and in the painting order. */
  ghost predicate SameSeat(store: Store, store': Store, id: Id) {
    IsShape(store, id) && IsShape(store', id) && store'[id].parentId == store[id].parentId && store'[id].index == store[id].index
  }

  ghost predicate SamePosition(store: Store, store': Store, id: Id) {
    IsShape(store, id) && IsShape(store', id) && store'[id].x == store[id].x && store'[id].y == store[id].y
  }

  /** The last position written to the shape, if any is. */
  ghost predicate WrittenLast(writes: seq<Write>, id: Id, i: nat) {
    i < |writes| && writes[i].id == id && forall j :: i < j < |writes| ==> writes[j].id != id
  }

  ghost predicate Repositioned(store: Store, store': Store, writes: seq<Write>) {
    && store'.Keys == store.Keys
    && (forall k :: k in store && (forall w :: w in writes ==> w.id != k) ==> store'[k] == store[k])
    && (forall k, i: nat :: WrittenLast(writes, k, i) && k in store ==>
          SameSeat(store, store', k) && store'[k].body == store[k].body && store'[k].x == writes[i].x && store'[k].y == writes[i].y)
  }

  /** The entity is stored where its fields say, under the type they say if they say one, and otherwise as given. */
  ghost predicate Kept(store: Store, store': Store, id: Id, entityType: string, content: string, relations: seq<Relation>, fields: Fields) {
    var at := Destination(id, fields);
    && OthersStay(store, store', {at}) && IsEntity(store', at) && store'[at].content == content
    && store'[at].entityType == (match fields.newType case None => entityType case Some(t) => t)
    && store'[at].relations == if fields.emptiesRelations then [] else relations
  }

  /** Only the relations of the entity differ. */
  ghost predicate Related(store: Store, store': Store, id: Id) {
    && OthersStay(store, store', {id}) && IsEntity(store, id) && IsEntity(store', id)
    && store'[id].entityType == store[id].entityType && store'[id].content == store[id].content
  }

  ghost predicate Linked(store: Store, store': Store, id: Id, r: Relation) {
    Related(store, store', id) && store'[id].relations == if r in store[id].relations then store[id].relations else store[id].relations + [r]
  }

  ghost predicate Effected(pageId: Id, store: Store, a: Action, store': Store) {
    match a
    case CreateShape(id, x, y, body) => OthersStay(store, store', {id}) && Drawn(pageId, store, store', id, x, y, body)
    case ConnectShapes(id, x, y, body, fromId, toId) =>
      && var start, end := BindingId(id.name + "_start"), BindingId(id.name + "_end");
         && start != end && OthersStay(store, store', {id, start, end}) && Drawn(pageId, store, store', id, x, y, body)
         && start in store' && store'[start] == BindingRecord(id, fromId) && end in store' && store'[end] == BindingRecord(id, toId)
    case DeleteShape(id) =>
      forall k :: (k in store' <==> k in store && k != id && !(store[k].BindingRecord? && (store[k].fromId == id || store[k].toId == id))) &&
        (k in store' ==> store'[k] == store[k])
    case MoveShape(id, x, y) =>
      OthersStay(store, store', {id}) && SameSeat(store, store', id) && store'[id].x == x && store'[id].y == y && store'[id].body == store[id].body
    case UpdateText(id, text) =>
      && OthersStay(store, store', {id}) && SameSeat(store, store', id) && SamePosition(store, store', id)
      && store'[id].body == Body(store[id].body.kind, text, store[id].body.w, store[id].body.h)
    case ResizeShape(id, w, h) =>
      && OthersStay(store, store', {id}) && SameSeat(store, store', id) && SamePosition(store, store', id)
      && store'[id].body == Body(store[id].body.kind, store[id].body.text, w, h)
    case ApplyLayout(writes) => Repositioned(store, store', writes)
    case CreateEntity(id, entityType, content, fields) => Kept(store, store', id, entityType, content, [], fields)
    case UpdateEntity(id, content, fields) =>
      IsEntity(store, id) && Kept(store, store', id, store[id].entityType, content, store[id].relations, fields)
    case LinkEntities(id, kind, target) => Linked(store, store', id, Relation(kind, target))
    case UnlinkEntities(id, kind, target) =>
      Related(store, store', id) && multiset(store'[id].relations) == multiset(store[id].relations)[Relation(kind, target) := 0]
    case AttachEvidence(id, evidenceId) => Linked(store, store', id, Relation("supported_by", evidenceId))
  }

  /* ------------------------------------------------------------------------- proofs */

  lemma {:induction false} DroppingCounts(relations: seq<Relation>, r: Relation)
    ensures multiset(Dropping(relations, r)) == multiset(relations)[r := 0]
    ensures |Dropping(relations, r)| == |relations| - multiset(relations)[r]
    decreases |relations|
  {
    if relations != [] {
      DroppingCounts(relations[..|relations| - 1], r);
      assert relations == relations[..|relations| - 1] + [relations[|relations| - 1]];
    }
  }

  lemma {:induction false} WritingDoes(pageId: Id, b: Batch, writes: seq<Write>)
    requires Consistent(pageId, b)
    ensures WriteAll(pageId, b, writes).Some? <==> forall w :: w in writes ==> IsShape(b.store, w.id)
    ensures WriteAll(pageId, b, writes).Some? ==>
              && Repositioned(b.store, WriteAll(pageId, b, writes).value.store, writes)
              && WriteAll(pageId, b, writes).value.entityCount == b.entityCount
    decreases |writes|
  {
    if writes != [] {
      var front, last := writes[..|writes| - 1], writes[|writes| - 1];
      WritingDoes(pageId, b, front);
      assert forall w :: w in writes <==> w in front || w == last;
      if WriteAll(pageId, b, front).Some? {
        var b1 := WriteAll(pageId, b, front).value;
        SameShapes(b.store, b1.store, front, last.id);
        if WriteOne(pageId, b1, last).Some? {
          OneMoreWritten(b.store, b1.store, writes, WriteOne(pageId, b1, last).value.store);
        }
      }
    }
  }

  lemma {:induction false} LastWrite(writes: seq<Write>, id: Id) returns (i: nat)
    requires exists w :: w in writes && w.id == id
    ensures WrittenLast(writes, id, i)
    decreases |writes|
  {
    i := |writes| - 1;
    if writes[i].id != id {
      var front := writes[..i];
      var w :| w in writes && w.id == id;
      assert w in front;
      i := LastWrite(front, id);
      forall j | i < j < |writes|
        ensures writes[j].id != id
      {
        assert j < |front| ==> front[j] == writes[j];
      }
    }
  }

  lemma SameShapes(store: Store, store': Store, writes: seq<Write>, id: Id)
    requires Repositioned(store, store', writes) && forall w :: w in writes ==> IsShape(store, w.id)
    ensures IsShape(store', id) <==> IsShape(store, id)
  {
    if w :| w in writes && w.id == id {
      var i := LastWrite(writes, id);
      assert SameSeat(store, store', id);
    }
  }

  lemma OneMoreWritten(store: Store, store1: Store, writes: seq<Write>, store': Store)
    requires writes != [] && Repositioned(store, store1, writes[..|writes| - 1])
    requires forall w :: w in writes ==> IsShape(store, w.id)
    requires var last := writes[|writes| - 1]; IsShape(store1, last.id) && store' == store1[last.id := store1[last.id].(x := last.x, y := last.y)]
    ensures Repositioned(store, store', writes)
  {
    var front, last := writes[..|writes| - 1], writes[|writes| - 1];
    assert forall w :: w in writes <==> w in front || w == last;
    forall k, i: nat | WrittenLast(writes, k, i) && k in store
      ensures SameSeat(store, store', k) && store'[k].body == store[k].body && store'[k].x == writes[i].x && store'[k].y == writes[i].y
    {
      if k != last.id {
        assert front[i] == writes[i] && WrittenLast(front, k, i);
      } else if w :| w in front && w.id == k {
        var j := LastWrite(front, k);
        assert SameSeat(store, store1, k);
      }
    }
  }

  lemma PageShapes(pageId: Id, b: Batch, id: Id)
    requires Consistent(pageId, b)
    ensures id in b.current <==> ShapeOfPage(b.store, pageId, id)
    ensures id in b.current ==> b.current[id] == b.store[id]
  {
  }

  lemma NewestOnTop(pageId: Id, b: Batch, id: Id)
    requires Consistent(pageId, b) && ShapeOfPage(b.store, pageId, id)
    ensures b.store[id].index < Above(b.top)
  {
    PageShapes(pageId, b, id);
  }

  lemma DrawingDoes(pageId: Id, b: Batch, id: Id, x: real, y: real, body: Body)
    requires Consistent(pageId, b) && id.ShapeId? && id !in b.store
    ensures Drawn(pageId, b.store, NewShape(pageId, b, id, x, y, body).value.store, id, x, y, body)
  {
    forall k | ShapeOfPage(b.store, pageId, k)
      ensures b.store[k].index < Above(b.top)
    {
      NewestOnTop(pageId, b, k);
    }
  }

  lemma ShapeActions(pageId: Id, b: Batch, a: Action)
    requires Consistent(pageId, b) && (a.CreateShape? || a.DeleteShape? || a.MoveShape? || a.UpdateText? || a.ResizeShape?)
    ensures Step(pageId, b, a).Some? <==> Possible(pageId, b, a)
    ensures Step(pageId, b, a).Some? ==> Effected(pageId, b.store, a, Step(pageId, b, a).value.store)
  {
    PageShapes(pageId, b, a.id);
    if a.CreateShape? && Possible(pageId, b, a) {
      DrawingDoes(pageId, b, a.id, a.x, a.y, a.body);
    }
  }

  lemma Connecting(pageId: Id, b: Batch, a: Action)
    requires Consistent(pageId, b) && a.ConnectShapes?
    ensures Step(pageId, b, a).Some? <==> Possible(pageId, b, a)
    ensures Step(pageId, b, a).Some? ==> Effected(pageId, b.store, a, Step(pageId, b, a).value.store)
  {
    PageShapes(pageId, b, a.fromId);
    PageShapes(pageId, b, a.toId);
    EndsDiffer(a.id);
    if Possible(pageId, b, a) {
      DrawingDoes(pageId, b, a.id, a.x, a.y, a.body);
    }
  }

  lemma EntityActions(pageId: Id, b: Batch, a: Action)
    requires Consistent(pageId, b) && (a.CreateEntity? || a.UpdateEntity?)
    ensures Step(pageId, b, a).Some? <==> Possible(pageId, b, a)
    ensures Step(pageId, b, a).Some? ==> Effected(pageId, b.store, a, Step(pageId, b, a).value.store)
  {
  }

  lemma RelationActions(pageId: Id, b: Batch, a: Action)
    requires Consistent(pageId, b) && (a.LinkEntities? || a.UnlinkEntities? || a.AttachEvidence?)
    ensures Step(pageId, b, a).Some? <==> Possible(pageId, b, a)
    ensures Step(pageId, b, a).Some? ==> Effected(pageId, b.store, a, Step(pageId, b, a).value.store)
  {
    assert forall k :: k in b.store && b.store[k].EntityRecord? ==> k.EntityId?;
    if a.UnlinkEntities? && IsEntity(b.store, a.id) {
      DroppingCounts(b.store[a.id].relations, Relation(a.kind, a.target));
    }
  }

  /** An action goes through exactly when the records allow it, and then does this to them and nothing else. */
  lemma ActionsDoAsAsked(pageId: Id, b: Batch, a: Action)
    requires Consistent(pageId, b)
    ensures Step(pageId, b, a).Some? <==> Possible(pageId, b, a)
    ensures Step(pageId, b, a).Some? ==>
              var b' := Step(pageId, b, a).value;
              Effected(pageId, b.store, a, b'.store) && b'.entityCount == b.entityCount + if a.CreateEntity? then 1 else 0
  {
    match a
    case ConnectShapes(_, _, _, _, _, _) => Connecting(pageId, b, a);
    case ApplyLayout(writes) => WritingDoes(pageId, b, writes);
    case CreateEntity(_, _, _, _) => EntityActions(pageId, b, a);
    case UpdateEntity(_, _, _) => EntityActions(pageId, b, a);
    case LinkEntities(_, _, _) => RelationActions(pageId, b, a);
    case UnlinkEntities(_, _, _) => RelationActions(pageId, b, a);
    case AttachEvidence(_, _) => RelationActions(pageId, b, a);
    case _ => ShapeActions(pageId, b, a);
  }
}
