/**
 * The batch of actions a machine client sends: each is applied to one open transaction, beside a running
 * index of the shapes directly on the page. If any action fails the whole batch is rolled back.
 */
module ActionBatch {
  import opened Wrappers

  /** Record ids carry the kind of record they name. */
  datatype Id = ShapeId(name: string) | BindingId(name: string) | EntityId(name: string) | OtherId(name: string)

  datatype ShapeKind = Geo | Text | Note | Frame | Arrow | AnyOther

  datatype Body = Body(kind: ShapeKind, text: string, w: real, h: real)

  datatype Relation = Relation(kind: string, target: Id)

  datatype Record =
    | ShapeRecord(parentId: Id, index: int, x: real, y: real, body: Body)
    | BindingRecord(fromId: Id, toId: Id)
    | EntityRecord(entityType: string, content: string, relations: seq<Relation>)
    | OtherRecord

  type Store = map<Id, Record>

  /** What the client may override in an entity through its free fields: the id, the type, and relations only by emptying them. */
  datatype Fields = Fields(newId: Option<Id>, newType: Option<string>, emptiesRelations: bool)

  /** A position written to a shape, wherever on the page it is nested. */
  datatype Write = Write(id: Id, x: real, y: real)

  datatype Action =
    | CreateShape(id: Id, x: real, y: real, body: Body)
    | ConnectShapes(id: Id, x: real, y: real, body: Body, fromId: Id, toId: Id)
    | DeleteShape(id: Id)
    | MoveShape(id: Id, x: real, y: real)
    | UpdateText(id: Id, text: string)
    | ResizeShape(id: Id, w: real, h: real)
    | ApplyLayout(writes: seq<Write>)
    | CreateEntity(id: Id, entityType: string, content: string, fields: Fields)
    | UpdateEntity(id: Id, content: string, fields: Fields)
    | LinkEntities(id: Id, kind: string, target: Id)
    | UnlinkEntities(id: Id, kind: string, target: Id)
    | AttachEvidence(id: Id, evidenceId: Id)

  const MAX_ENTITIES: nat := 2000
  const MAX_RELATIONS: nat := 20

  datatype Batch = Batch(store: Store, current: map<Id, Record>, top: Option<int>, entityCount: nat)

  /* ------------------------------------------------------------------- shape actions */

  function Above(top: Option<int>): int {
    if top.None? then 1 else top.value + 1
  }

  function PutShape(b: Batch, id: Id, s: Record): Batch {
    b.(store := b.store[id := s], current := b.current[id := s])
  }

  function StartOf(id: Id): Id { BindingId(id.name + "_start") }

  function EndOf(id: Id): Id { BindingId(id.name + "_end") }

  function NewShape(pageId: Id, b: Batch, id: Id, x: real, y: real, body: Body): Option<Batch> {
    if !id.ShapeId? || id in b.store then None
    else Some(PutShape(b.(top := Some(Above(b.top))), id, ShapeRecord(pageId, Above(b.top), x, y, body)))
  }

  /** The arrow, and one binding for each of its ends. */
  function Connect(pageId: Id, b: Batch, id: Id, x: real, y: real, body: Body, fromId: Id, toId: Id): Option<Batch> {
    if fromId !in b.current || toId !in b.current then None
    else
      match NewShape(pageId, b, id, x, y, body)
      case None => None
      case Some(b1) =>
        if StartOf(id) in b.store || EndOf(id) in b.store then None
        else Some(b1.(store := b1.store[StartOf(id) := BindingRecord(id, fromId)][EndOf(id) := BindingRecord(id, toId)]))
  }

  predicate Touches(r: Record, id: Id) {
    r.BindingRecord? && (r.fromId == id || r.toId == id)
  }

  /** The store without the shape and without any binding from or to it. */
  function Without(store: Store, id: Id): Store {
    map k | k in store && k != id && !Touches(store[k], id) :: store[k]
  }

  function Delete(b: Batch, id: Id): Option<Batch> {
    if id !in b.current then None else Some(b.(store := Without(b.store, id), current := b.current - {id}))
  }

  function Rewrite(b: Batch, id: Id, s: Record): Option<Batch> {
    if id !in b.current then None else Some(PutShape(b, id, s))
  }

  function WriteOne(pageId: Id, b: Batch, w: Write): Option<Batch> {
    if w.id !in b.store || !b.store[w.id].ShapeRecord? then None
    else
      var s := b.store[w.id].(x := w.x, y := w.y);
      Some(if s.parentId == pageId then PutShape(b, w.id, s) else b.(store := b.store[w.id := s]))
  }

  function WriteAll(pageId: Id, b: Batch, writes: seq<Write>): Option<Batch>
    decreases |writes|
  {
    if writes == [] then Some(b)
    else
      match WriteAll(pageId, b, writes[..|writes| - 1])
      case None => None
      case Some(b1) => WriteOne(pageId, b1, writes[|writes| - 1])
  }

  /* ------------------------------------------------------------------ entity actions */

  predicate IsEntity(store: Store, id: Id) {
    id in store && store[id].EntityRecord?
  }

  /** The free fields are spread over the entity last; the id they leave it with is where it is stored. */
  function StoreEntity(b: Batch, id: Id, entity: Record, fields: Fields): Option<Batch>
    requires entity.EntityRecord?
  {
    var at := if fields.newId.Some? then fields.newId.value else id;
    var relations := if fields.emptiesRelations then [] else entity.relations;
    var type' := if fields.newType.Some? then fields.newType.value else entity.entityType;
    if !at.EntityId? || |relations| > MAX_RELATIONS then None
    else Some(b.(store := b.store[at := EntityRecord(type', entity.content, relations)]))
  }

  function AddEntity(b: Batch, id: Id, entityType: string, content: string, fields: Fields): Option<Batch> {
    if id in b.store || b.entityCount >= MAX_ENTITIES then None
    else
      match StoreEntity(b, id, EntityRecord(entityType, content, []), fields)
      case None => None
      case Some(b1) => Some(b1.(entityCount := b.entityCount + 1))
  }

  function ChangeEntity(b: Batch, id: Id, content: string, fields: Fields): Option<Batch> {
    if !IsEntity(b.store, id) then None else StoreEntity(b, id, b.store[id].(content := content), fields)
  }

  const NO_FIELDS := Fields(None, None, false)

  function Link(b: Batch, id: Id, kind: string, target: Id): Option<Batch> {
    if !IsEntity(b.store, id) || !IsEntity(b.store, target) then None
    else if Relation(kind, target) in b.store[id].relations then Some(b)
    else StoreEntity(b, id, b.store[id].(relations := b.store[id].relations + [Relation(kind, target)]), NO_FIELDS)
  }

  function Dropping(relations: seq<Relation>, r: Relation): seq<Relation>
    decreases |relations|
  {
    if relations == [] then []
    else
      var front, last := Dropping(relations[..|relations| - 1], r), relations[|relations| - 1];
      if last == r then front else front + [last]
  }

  function Unlink(b: Batch, id: Id, kind: string, target: Id): Option<Batch> {
    if !IsEntity(b.store, id) then None
    else StoreEntity(b, id, b.store[id].(relations := Dropping(b.store[id].relations, Relation(kind, target))), NO_FIELDS)
  }

  function Attach(b: Batch, id: Id, evidenceId: Id): Option<Batch> {
    if !IsEntity(b.store, evidenceId) || b.store[evidenceId].entityType != "evidence" then None
    else Link(b, id, "supported_by", evidenceId)
  }

  /* --------------------------------------------------------------------------- batches */

  function Step(pageId: Id, b: Batch, a: Action): Option<Batch> {
    match a
    case CreateShape(id, x, y, body) => NewShape(pageId, b, id, x, y, body)
    case ConnectShapes(id, x, y, body, fromId, toId) => Connect(pageId, b, id, x, y, body, fromId, toId)
    case DeleteShape(id) => Delete(b, id)
    case MoveShape(id, x, y) =>
      if id !in b.current || !b.current[id].ShapeRecord? then None else Rewrite(b, id, b.current[id].(x := x, y := y))
    case UpdateText(id, text) =>
      if id !in b.current || !b.current[id].ShapeRecord? || b.current[id].body.kind !in {Geo, Text, Note} then None
      else Rewrite(b, id, b.current[id].(body := b.current[id].body.(text := text)))
    case ResizeShape(id, w, h) =>
      if id !in b.current || !b.current[id].ShapeRecord? || b.current[id].body.kind !in {Geo, Frame} then None
      else Rewrite(b, id, b.current[id].(body := b.current[id].body.(w := w, h := h)))
    case ApplyLayout(writes) => WriteAll(pageId, b, writes)
    case CreateEntity(id, entityType, content, fields) => AddEntity(b, id, entityType, content, fields)
    case UpdateEntity(id, content, fields) => ChangeEntity(b, id, content, fields)
    case LinkEntities(id, kind, target) => Link(b, id, kind, target)
    case UnlinkEntities(id, kind, target) => Unlink(b, id, kind, target)
    case AttachEvidence(id, evidenceId) => Attach(b, id, evidenceId)
  }

  function Apply(pageId: Id, b: Batch, actions: seq<Action>): Option<Batch>
    decreases |actions|
  {
    if actions == [] then Some(b)
    else
      match Apply(pageId, b, actions[..|actions| - 1])
      case None => None
      case Some(b1) => Step(pageId, b1, actions[|actions| - 1])
  }

  /* ------------------------------------------------------------------------ invariants */

  /** Ids name records of their own kind. */
  ghost predicate WellKinded(store: Store) {
    forall k :: k in store ==>
      && (store[k].ShapeRecord? <==> k.ShapeId?) && (store[k].BindingRecord? <==> k.BindingId?) && (store[k].EntityRecord? <==> k.EntityId?)
  }

  predicate OnPage(pageId: Id, r: Record) {
    r.ShapeRecord? && r.parentId == pageId
  }

  /** The running index is exactly the store's shapes directly on the page. */
  ghost predicate IndexAgrees(pageId: Id, b: Batch) {
    && (forall k :: k in b.current ==> k in b.store && b.store[k] == b.current[k])
    && (forall k :: k in b.store ==> (k in b.current <==> OnPage(pageId, b.store[k])))
  }

  ghost predicate EndpointsExist(store: Store) {
    forall k :: k in store && store[k].BindingRecord? ==>
      && store[k].fromId in store && store[store[k].fromId].ShapeRecord?
      && store[k].toId in store && store[store[k].toId].ShapeRecord?
  }

  ghost predicate RelationsResolve(store: Store) {
    forall k, r :: k in store && store[k].EntityRecord? && r in store[k].relations ==> IsEntity(store, r.target)
  }

  /** Nothing on the page is painted above the running top, so what is created next is painted last. */
  ghost predicate TopIsHighest(b: Batch) {
    forall k :: k in b.current && b.current[k].ShapeRecord? ==> b.top.Some? && b.current[k].index <= b.top.value
  }

  ghost predicate Consistent(pageId: Id, b: Batch) {
    match b
    case Batch(store, _, _, _) =>
      WellKinded(store) && IndexAgrees(pageId, b) && EndpointsExist(store) && RelationsResolve(store) && TopIsHighest(b)
  }

  lemma ShapePut(pageId: Id, b: Batch, id: Id, s: Record)
    requires Consistent(pageId, b) && id.ShapeId? && OnPage(pageId, s)
    requires b.top.Some? && s.index <= b.top.value
    ensures Consistent(pageId, PutShape(b, id, s))
  {
    var store := b.store[id := s];
    forall k, r | k in store && store[k].EntityRecord? && r in store[k].relations
      ensures IsEntity(store, r.target)
    {
      assert k in b.store && IsEntity(b.store, r.target);
    }
  }

  lemma NewShapeKeeps(pageId: Id, b: Batch, id: Id, x: real, y: real, body: Body)
    requires Consistent(pageId, b) && NewShape(pageId, b, id, x, y, body).Some?
    ensures Consistent(pageId, NewShape(pageId, b, id, x, y, body).value)
  {
    ShapePut(pageId, b.(top := Some(Above(b.top))), id, ShapeRecord(pageId, Above(b.top), x, y, body));
  }

  lemma BindingPut(pageId: Id, b: Batch, id: Id, fromId: Id, toId: Id)
    requires Consistent(pageId, b) && id.BindingId? && fromId in b.current && toId in b.current
    ensures Consistent(pageId, b.(store := b.store[id := BindingRecord(fromId, toId)]))
  {
    var store := b.store[id := BindingRecord(fromId, toId)];
    forall k, r | k in store && store[k].EntityRecord? && r in store[k].relations
      ensures IsEntity(store, r.target)
    {
      assert k in b.store && IsEntity(b.store, r.target);
    }
  }

  lemma ConnectKeeps(pageId: Id, b: Batch, id: Id, x: real, y: real, body: Body, fromId: Id, toId: Id)
    requires Consistent(pageId, b) && Connect(pageId, b, id, x, y, body, fromId, toId).Some?
    ensures Consistent(pageId, Connect(pageId, b, id, x, y, body, fromId, toId).value)
  {
    var b1 := NewShape(pageId, b, id, x, y, body).value;
    NewShapeKeeps(pageId, b, id, x, y, body);
    BindingPut(pageId, b1, StartOf(id), id, fromId);
    BindingPut(pageId, b1.(store := b1.store[StartOf(id) := BindingRecord(id, fromId)]), EndOf(id), id, toId);
  }

  lemma DeleteKeeps(pageId: Id, b: Batch, id: Id)
    requires Consistent(pageId, b) && Delete(b, id).Some?
    ensures Consistent(pageId, Delete(b, id).value)
  {
    var store := Without(b.store, id);
    forall k, r | k in store && store[k].EntityRecord? && r in store[k].relations
      ensures IsEntity(store, r.target)
    {
      assert k in b.store && IsEntity(b.store, r.target);
    }
  }

  lemma WriteOneKeeps(pageId: Id, b: Batch, w: Write)
    requires Consistent(pageId, b) && WriteOne(pageId, b, w).Some?
    ensures Consistent(pageId, WriteOne(pageId, b, w).value)
  {
    var s := b.store[w.id].(x := w.x, y := w.y);
    if s.parentId == pageId {
      ShapePut(pageId, b, w.id, s);
    } else {
      var store := b.store[w.id := s];
      forall k, r | k in store && store[k].EntityRecord? && r in store[k].relations
        ensures IsEntity(store, r.target)
      {
        assert k in b.store && IsEntity(b.store, r.target);
      }
    }
  }

  lemma {:induction false} WriteAllKeeps(pageId: Id, b: Batch, writes: seq<Write>)
    requires Consistent(pageId, b) && WriteAll(pageId, b, writes).Some?
    ensures Consistent(pageId, WriteAll(pageId, b, writes).value)
    decreases |writes|
  {
    if writes != [] {
      WriteAllKeeps(pageId, b, writes[..|writes| - 1]);
      WriteOneKeeps(pageId, WriteAll(pageId, b, writes[..|writes| - 1]).value, writes[|writes| - 1]);
    }
  }

  /** Storing an entity under whatever id it ends up with never removes one, so what resolved still resolves. */
  lemma EntityPut(pageId: Id, b: Batch, id: Id, entity: Record, fields: Fields)
    requires Consistent(pageId, b) && entity.EntityRecord? && StoreEntity(b, id, entity, fields).Some?
    requires forall r :: r in entity.relations ==> IsEntity(b.store, r.target)
    ensures Consistent(pageId, StoreEntity(b, id, entity, fields).value)
  {
    var b' := StoreEntity(b, id, entity, fields).value;
    forall k | IsEntity(b.store, k)
      ensures IsEntity(b'.store, k)
    {
    }
    forall k, r | k in b'.store && b'.store[k].EntityRecord? && r in b'.store[k].relations
      ensures IsEntity(b.store, r.target)
    {
    }
  }

  lemma {:induction false} DroppingKeepsOthers(relations: seq<Relation>, r: Relation)
    ensures forall x :: x in Dropping(relations, r) <==> x in relations && x != r
    ensures r !in relations ==> Dropping(relations, r) == relations
    decreases |relations|
  {
    if relations != [] {
      DroppingKeepsOthers(relations[..|relations| - 1], r);
      assert forall x :: x in relations <==> x == relations[|relations| - 1] || x in relations[..|relations| - 1];
    }
  }

  lemma LinkKeeps(pageId: Id, b: Batch, id: Id, kind: string, target: Id)
    requires Consistent(pageId, b) && Link(b, id, kind, target).Some?
    ensures Consistent(pageId, Link(b, id, kind, target).value)
  {
    if Relation(kind, target) !in b.store[id].relations {
      EntityPut(pageId, b, id, b.store[id].(relations := b.store[id].relations + [Relation(kind, target)]), NO_FIELDS);
    }
  }

  lemma StepKeepsConsistent(pageId: Id, b: Batch, a: Action)
    requires Consistent(pageId, b) && Step(pageId, b, a).Some?
    ensures Consistent(pageId, Step(pageId, b, a).value)
  {
    match a
    case CreateShape(id, x, y, body) => NewShapeKeeps(pageId, b, id, x, y, body);
    case ConnectShapes(id, x, y, body, fromId, toId) => ConnectKeeps(pageId, b, id, x, y, body, fromId, toId);
    case DeleteShape(id) => DeleteKeeps(pageId, b, id);
    case MoveShape(id, x, y) => ShapePut(pageId, b, id, b.current[id].(x := x, y := y));
    case UpdateText(id, text) => ShapePut(pageId, b, id, b.current[id].(body := b.current[id].body.(text := text)));
    case ResizeShape(id, w, h) => ShapePut(pageId, b, id, b.current[id].(body := b.current[id].body.(w := w, h := h)));
    case ApplyLayout(writes) => WriteAllKeeps(pageId, b, writes);
    case CreateEntity(id, entityType, content, fields) => EntityPut(pageId, b, id, EntityRecord(entityType, content, []), fields);
    case UpdateEntity(id, content, fields) => EntityPut(pageId, b, id, b.store[id].(content := content), fields);
    case LinkEntities(id, kind, target) => LinkKeeps(pageId, b, id, kind, target);
    case UnlinkEntities(id, kind, target) =>
      DroppingKeepsOthers(b.store[id].relations, Relation(kind, target));
      EntityPut(pageId, b, id, b.store[id].(relations := Dropping(b.store[id].relations, Relation(kind, target))), NO_FIELDS);
    case AttachEvidence(id, evidenceId) => LinkKeeps(pageId, b, id, "supported_by", evidenceId);
  }

  /**
   * Throughout any batch the running index is exactly the page's shapes, both ends of every binding exist, and
   * every relation points at an entity, whatever the free fields override.
   */
  lemma {:induction false} BatchKeepsConsistent(pageId: Id, b: Batch, actions: seq<Action>)
    requires Consistent(pageId, b) && Apply(pageId, b, actions).Some?
    ensures Consistent(pageId, Apply(pageId, b, actions).value)
    decreases |actions|
  {
    if actions != [] {
      BatchKeepsConsistent(pageId, b, actions[..|actions| - 1]);
      StepKeepsConsistent(pageId, Apply(pageId, b, actions[..|actions| - 1]).value, actions[|actions| - 1]);
    }
  }

  /** A new shape is painted above everything that was on the page. */
  lemma CreatedOnTop(pageId: Id, b: Batch, id: Id, x: real, y: real, body: Body, other: Id)
    requires Consistent(pageId, b) && NewShape(pageId, b, id, x, y, body).Some? && other in b.current
    ensures var b' := NewShape(pageId, b, id, x, y, body).value;
            && other in b'.store && b'.store[other] == b.store[other] && b'.store[other].ShapeRecord?
            && id in b'.store && b'.store[id].ShapeRecord? && b'.store[other].index < b'.store[id].index
  {
  }

  /* ---------------------------------------------------------------------- what is undone */

  lemma EndsDiffer(id: Id)
    ensures StartOf(id) != EndOf(id)
  {
    assert |id.name + "_start"| == |id.name + "_end"| + 2;
  }

  /** Deleting a freshly drawn connection takes its bindings with it and leaves the board as it was. */
  lemma ConnectThenDelete(pageId: Id, b: Batch, id: Id, x: real, y: real, body: Body, fromId: Id, toId: Id)
    requires Consistent(pageId, b) && Connect(pageId, b, id, x, y, body, fromId, toId).Some?
    ensures var b1 := Connect(pageId, b, id, x, y, body, fromId, toId).value;
            && Delete(b1, id).Some? && Delete(b1, id).value.store == b.store && Delete(b1, id).value.current == b.current
  {
    EndsDiffer(id);
    var b1 := Connect(pageId, b, id, x, y, body, fromId, toId).value;
    var store := Delete(b1, id).value.store;
    forall k
      ensures k in store <==> k in b.store
      ensures k in b.store ==> b1.store[k] == b.store[k]
    {
      if k in b.store {
        assert !Touches(b.store[k], id);
      }
    }
  }

  /** Removing a relation that was just added restores the entity. */
  lemma LinkThenUnlink(b: Batch, id: Id, kind: string, target: Id)
    requires Link(b, id, kind, target).Some? && id.EntityId? && Relation(kind, target) !in b.store[id].relations
    ensures var b1 := Link(b, id, kind, target).value;
            Unlink(b1, id, kind, target) == Some(b)
  {
    var b1, r, before := Link(b, id, kind, target).value, Relation(kind, target), b.store[id].relations;
    assert (before + [r])[..|before|] == before;
    DroppingKeepsOthers(before, r);
    assert Dropping(before + [r], r) == before;
    assert b1.store[id] == b.store[id].(relations := before + [r]) && |before + [r]| <= MAX_RELATIONS;
    assert b1.store[id := b.store[id]] == b.store;
  }

  /* ----------------------------------------------------------------------- the interpreter */

  /** The start of a batch: the page's shapes, the highest of their places in the painting order, and how many entities there are. */
  ghost predicate Opens(pageId: Id, store: Store, b: Batch) {
    && b.store == store && Consistent(pageId, b)
    && (b.top.Some? ==> exists k :: k in b.current && b.current[k].ShapeRecord? && b.current[k].index == b.top.value)
    && b.entityCount == |EntitiesIn(store, store.Keys)|
  }

  ghost function EntitiesIn(store: Store, ids: set<Id>): set<Id> {
    set k | k in ids && IsEntity(store, k)
  }

  lemma CountOneMore(store: Store, seen: set<Id>, k: Id)
    requires k in store && k !in seen
    ensures |EntitiesIn(store, seen + {k})| == |EntitiesIn(store, seen)| + if store[k].EntityRecord? then 1 else 0
  {
    assert EntitiesIn(store, seen + {k}) == EntitiesIn(store, seen) + if store[k].EntityRecord? then {k} else {};
  }

  /** The bindings still to be looked at, and those that do not touch the shape. */
  function WithoutBut(store: Store, id: Id, rest: set<Id>): Store {
    map k | k in store && k != id && (k in rest || !Touches(store[k], id)) :: store[k]
  }

  lemma LookAtOne(store: Store, id: Id, rest: set<Id>, k: Id)
    requires k in rest && k in store && k != id
    ensures WithoutBut(store, id, rest - {k}) ==
            if Touches(store[k], id) then WithoutBut(store, id, rest) - {k} else WithoutBut(store, id, rest)
  {
  }

  /** A binding that points at or from a deleted shape would dangle, so it goes with it. */
  method DropWithBindings(store: Store, id: Id) returns (left: Store)
    ensures left == Without(store, id)
  {
    left := store - {id};
    var rest := left.Keys;
    while rest != {}
      invariant rest <= left.Keys
      invariant left == WithoutBut(store, id, rest)
      decreases |rest|
    {
      var k :| k in rest;
      LookAtOne(store, id, rest, k);
      rest := rest - {k};
      if Touches(left[k], id) {
        left := left - {k};
      }
    }
  }

  /** The highest place in the painting order. */
  method HighestOf(shapes: map<Id, Record>) returns (top: Option<int>)
    requires forall k :: k in shapes ==> shapes[k].ShapeRecord?
    ensures forall k :: k in shapes ==> top.Some? && shapes[k].index <= top.value
    ensures top.Some? ==> exists k :: k in shapes && shapes[k].index == top.value
  {
    top := None;
    var rest := shapes.Keys;
    while rest != {}
      invariant rest <= shapes.Keys
      invariant forall k :: k in shapes && k !in rest ==> top.Some? && shapes[k].index <= top.value
      invariant top.Some? ==> exists k :: k in shapes && shapes[k].index == top.value
      decreases |rest|
    {
      var k :| k in rest;
      rest := rest - {k};
      if top.None? || top.value < shapes[k].index {
        top := Some(shapes[k].index);
      }
    }
  }

  method CountEntities(store: Store) returns (n: nat)
    ensures n == |EntitiesIn(store, store.Keys)|
  {
    n := 0;
    var rest := store.Keys;
    while rest != {}
      invariant rest <= store.Keys
      invariant n == |EntitiesIn(store, store.Keys - rest)|
      decreases |rest|
    {
      var k :| k in rest;
      CountOneMore(store, store.Keys - rest, k);
      assert store.Keys - (rest - {k}) == store.Keys - rest + {k};
      rest := rest - {k};
      if store[k].EntityRecord? {
        n := n + 1;
      }
    }
    assert store.Keys - rest == store.Keys;
  }

  class BatchInterpreter {
    const pageId: Id
    var store: Store
    var current: map<Id, Record>
    var top: Option<int>
    var entityCount: nat

    function State(): Batch
      reads this
    {
      Batch(store, current, top, entityCount)
    }

    /** The running index starts as the page's shapes, and the top as the highest of them. */
    constructor (pageId: Id, store: Store)
      requires WellKinded(store) && EndpointsExist(store) && RelationsResolve(store)
      ensures this.pageId == pageId && Opens(pageId, store, State())
    {
      this.pageId, this.store := pageId, store;
      var shapes := map k | k in store && OnPage(pageId, store[k]) :: store[k];
      this.current := shapes;
      new;
      top := HighestOf(shapes);
      entityCount := CountEntities(store);
    }

    method SetShape(id: Id, s: Record)
      modifies this`store, this`current
      ensures State() == PutShape(old(State()), id, s)
    {
      store := store[id := s];
      current := current[id := s];
    }

    method Create(id: Id, x: real, y: real, body: Body) returns (ok: bool)
      modifies this
      ensures Reports(NewShape(pageId, old(State()), id, x, y, body), ok)
    {
      if !id.ShapeId? || id in store {
        return false;
      }
      top := Some(Above(top));
      SetShape(id, ShapeRecord(pageId, top.value, x, y, body));
      return true;
    }

    /** Either the action went through and this is its result, or it failed and the transaction is abandoned. */
    ghost predicate Reports(expected: Option<Batch>, ok: bool)
      reads this
    {
      (ok <==> expected.Some?) && (ok ==> State() == expected.value)
    }

    method ConnectWithBindings(id: Id, x: real, y: real, body: Body, fromId: Id, toId: Id) returns (ok: bool)
      modifies this
      ensures Reports(Connect(pageId, old(State()), id, x, y, body, fromId, toId), ok)
    {
      EndsDiffer(id);
      if fromId !in current || toId !in current {
        return false;
      }
      ok := Create(id, x, y, body);
      if !ok || StartOf(id) in store {
        return false;
      }
      store := store[StartOf(id) := BindingRecord(id, fromId)];
      if EndOf(id) in store {
        return false;
      }
      store := store[EndOf(id) := BindingRecord(id, toId)];
      return true;
    }

    method DeleteWithBindings(id: Id) returns (ok: bool)
      modifies this`store, this`current
      ensures Reports(Delete(old(State()), id), ok)
    {
      if id !in current {
        return false;
      }
      current := current - {id};
      store := DropWithBindings(store, id);
      return true;
    }

    method WritePositions(writes: seq<Write>) returns (ok: bool)
      modifies this`store, this`current
      ensures Reports(WriteAll(pageId, old(State()), writes), ok)
    {
      for i := 0 to |writes|
        invariant WriteAll(pageId, old(State()), writes[..i]) == Some(State())
      {
        assert writes[..i + 1][..i] == writes[..i];
        var w := writes[i];
        if w.id !in store || !store[w.id].ShapeRecord? {
          FailsForGood(pageId, old(State()), writes, i + 1);
          return false;
        }
        var s := store[w.id].(x := w.x, y := w.y);
        store := store[w.id := s];
        if s.parentId == pageId {
          current := current[w.id := s];
        }
      }
      assert writes[..|writes|] == writes;
      return true;
    }

    method ApplyAction(a: Action) returns (ok: bool)
      requires Consistent(pageId, State())
      modifies this
      ensures Reports(Step(pageId, old(State()), a), ok)
    {
      match a
      case CreateShape(id, x, y, body) => ok := Create(id, x, y, body);
      case ConnectShapes(id, x, y, body, fromId, toId) => ok := ConnectWithBindings(id, x, y, body, fromId, toId);
      case DeleteShape(id) => ok := DeleteWithBindings(id);
      case ApplyLayout(writes) => ok := WritePositions(writes);
      case _ =>
        var next := Step(pageId, State(), a);
        ok := next.Some?;
        if ok {
          store, current, top, entityCount := next.value.store, next.value.current, next.value.top, next.value.entityCount;
        }
    }
  }

  lemma {:induction false} FailsForGood(pageId: Id, b: Batch, writes: seq<Write>, n: nat)
    requires n <= |writes| && WriteAll(pageId, b, writes[..n]).None?
    ensures WriteAll(pageId, b, writes).None?
    decreases |writes|
  {
    if n == |writes| {
      assert writes[..n] == writes;
    } else {
      assert writes[..|writes| - 1][..n] == writes[..n];
      FailsForGood(pageId, b, writes[..|writes| - 1], n);
    }
  }

  lemma {:induction false} FailedBatch(pageId: Id, b: Batch, actions: seq<Action>, n: nat)
    requires n <= |actions| && Apply(pageId, b, actions[..n]).None?
    ensures Apply(pageId, b, actions).None?
    decreases |actions|
  {
    if n == |actions| {
      assert actions[..n] == actions;
    } else {
      assert actions[..|actions| - 1][..n] == actions[..n];
      FailedBatch(pageId, b, actions[..|actions| - 1], n);
    }
  }

  /* -------------------------------------------------------------------- re-routed arrows */

  /** Where an arrow this interface drew runs once the boxes it connects have moved. */
  datatype Reroute = Reroute(id: Id, x: real, y: real, body: Body)

  /** Only an arrow directly on the page is ever re-routed. */
  predicate Reroutable(store: Store, pageId: Id, id: Id) {
    id in store && OnPage(pageId, store[id]) && store[id].body.kind == Arrow
  }

  function Rerouted(store: Store, pageId: Id, routes: seq<Reroute>): Store
    decreases |routes|
  {
    if routes == [] then store
    else
      var front, r := Rerouted(store, pageId, routes[..|routes| - 1]), routes[|routes| - 1];
      if Reroutable(front, pageId, r.id) then front[r.id := front[r.id].(x := r.x, y := r.y, body := r.body.(kind := Arrow))] else front
  }

  /** Records other than the page's arrows, and every record's kind and place, are left alone. */
  ghost predicate OnlyArrowsMove(store: Store, store': Store, pageId: Id) {
    && store'.Keys == store.Keys
    && (forall k :: k in store && !Reroutable(store, pageId, k) ==> store'[k] == store[k])
    && (forall k :: k in store && Reroutable(store, pageId, k) ==>
          Reroutable(store', pageId, k) && store'[k].index == store[k].index)
  }

  /** The last route there is for the arrow. */
  ghost predicate RoutedLast(routes: seq<Reroute>, id: Id, i: nat) {
    i < |routes| && routes[i].id == id && forall j :: i < j < |routes| ==> routes[j].id != id
  }

  /** In its old place in the page, on its new course. */
  ghost predicate RunsAs(store: Store, store': Store, id: Id, r: Reroute) {
    && id in store && store[id].ShapeRecord? && id in store'
    && store'[id] == ShapeRecord(store[id].parentId, store[id].index, r.x, r.y, Body(Arrow, r.body.text, r.body.w, r.body.h))
  }

  /** An arrow of the page with a route runs as the last one says, and one without as before. */
  ghost predicate FollowsRoutes(store: Store, store': Store, pageId: Id, routes: seq<Reroute>) {
    && (forall k, i: nat :: RoutedLast(routes, k, i) && Reroutable(store, pageId, k) ==> RunsAs(store, store', k, routes[i]))
    && (forall k :: k in store && (forall r :: r in routes ==> r.id != k) ==> k in store' && store'[k] == store[k])
  }

  lemma {:induction false} ReroutingMovesOnlyArrows(store: Store, pageId: Id, routes: seq<Reroute>)
    ensures OnlyArrowsMove(store, Rerouted(store, pageId, routes), pageId)
    decreases |routes|
  {
    if routes != [] {
      ReroutingMovesOnlyArrows(store, pageId, routes[..|routes| - 1]);
    }
  }

  lemma {:induction false} ReroutingFollowsRoutes(store: Store, pageId: Id, routes: seq<Reroute>)
    ensures FollowsRoutes(store, Rerouted(store, pageId, routes), pageId, routes)
    decreases |routes|
  {
    if routes != [] {
      var front := routes[..|routes| - 1];
      ReroutingFollowsRoutes(store, pageId, front);
      ReroutingMovesOnlyArrows(store, pageId, front);
      OneMoreRoute(store, Rerouted(store, pageId, front), pageId, routes, Rerouted(store, pageId, routes));
    }
  }

  lemma OneMoreRoute(store: Store, store1: Store, pageId: Id, routes: seq<Reroute>, store': Store)
    requires routes != [] && FollowsRoutes(store, store1, pageId, routes[..|routes| - 1]) && OnlyArrowsMove(store, store1, pageId)
    requires var r := routes[|routes| - 1];
             store' == if Reroutable(store1, pageId, r.id) then store1[r.id := ShapeRecord(store1[r.id].parentId, store1[r.id].index, r.x, r.y, r.body.(kind := Arrow))] else store1
    ensures FollowsRoutes(store, store', pageId, routes)
  {
    var front, last := routes[..|routes| - 1], routes[|routes| - 1];
    assert forall r :: r in routes <==> r in front || r == last;
    forall k, i: nat | RoutedLast(routes, k, i) && Reroutable(store, pageId, k)
      ensures RunsAs(store, store', k, routes[i])
    {
      if k != last.id {
        assert front[i] == routes[i] && RoutedLast(front, k, i);
      }
    }
  }

  /** So the end of a request breaks nothing the batch has kept. */
  lemma ReroutingKeeps(store: Store, pageId: Id, routes: seq<Reroute>)
    requires WellKinded(store) && EndpointsExist(store) && RelationsResolve(store)
    ensures var after := Rerouted(store, pageId, routes);
            WellKinded(after) && EndpointsExist(after) && RelationsResolve(after)
  {
    var after := Rerouted(store, pageId, routes);
    ReroutingMovesOnlyArrows(store, pageId, routes);
    forall k, r | k in after && after[k].EntityRecord? && r in after[k].relations
      ensures IsEntity(after, r.target)
    {
      assert after[k] == store[k] && IsEntity(store, r.target);
    }
  }

  method RerouteArrows(store: Store, pageId: Id, routes: seq<Reroute>) returns (after: Store)
    ensures after == Rerouted(store, pageId, routes)
  {
    after := store;
    for i := 0 to |routes|
      invariant after == Rerouted(store, pageId, routes[..i])
    {
      var r := routes[i];
      assert routes[..i + 1][..i] == routes[..i];
      if r.id in after && OnPage(pageId, after[r.id]) && after[r.id].body.kind == Arrow {
        after := after[r.id := after[r.id].(x := r.x, y := r.y, body := r.body.(kind := Arrow))];
      }
    }
    assert routes[..|routes|] == routes;
  }

  /** The whole request: committed when every action goes through, otherwise the board as it was. */
  method ApplyRoomActions(store: Store, pageId: Id, actions: seq<Action>, routes: seq<Reroute>)
    returns (after: Store, committed: bool, ghost start: Batch)
    requires WellKinded(store) && EndpointsExist(store) && RelationsResolve(store)
    ensures Opens(pageId, store, start)
    ensures committed <==> Apply(pageId, start, actions).Some?
    ensures after == if committed then Rerouted(Apply(pageId, start, actions).value.store, pageId, routes) else store
    ensures WellKinded(after) && EndpointsExist(after) && RelationsResolve(after)
  {
    var batch := new BatchInterpreter(pageId, store);
    start := batch.State();
    for i := 0 to |actions|
      invariant fresh(batch) && batch.pageId == pageId
      invariant Apply(pageId, start, actions[..i]) == Some(batch.State()) && Consistent(pageId, batch.State())
    {
      assert actions[..i + 1][..i] == actions[..i];
      ghost var before := batch.State();
      var ok := batch.ApplyAction(actions[i]);
      if !ok {
        FailedBatch(pageId, start, actions, i + 1);
        return store, false, start;
      }
      StepKeepsConsistent(pageId, before, actions[i]);
    }
    assert actions[..|actions|] == actions;
    ReroutingKeeps(batch.store, pageId, routes);
    after := RerouteArrows(batch.store, pageId, routes);
    return after, true, start;
  }
}
