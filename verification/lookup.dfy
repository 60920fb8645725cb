/** One many-to-one relationship kept denormalised in the local store: a
    snapshot of the parent written onto each child, and optionally a related
    list of child snapshots kept on the parent. */
module Lookup {
  import opened Values
  import opened Store
  import opened Events

  /** A lookup definition as given in `lookupDefinitions`. */
  datatype LookupDefinition = LookupDefinition(
    lookupField: string,
    parentFieldName: Option<string>,
    parentFields: Option<seq<string>>,
    parentEntity: string,
    parentCollection: Collection,
    relatedListName: Option<string>,
    relatedListFields: Option<seq<string>>)

  /** `parentFields` after construction: `Id` and `Name` come first. */
  function ParentFields(given: Option<seq<string>>): (fs: seq<string>)
    ensures |fs| >= 2 && fs[..2] == ["Id", "Name"]
    ensures given.None? ==> fs == ["Id", "Name"]
    ensures given.Some? ==> fs[2..] == given.value
  {
    if given.None? then ["Id", "Name"] else ["Id", "Name"] + given.value
  }

  /** `extractNamedFields(record, fields)`: `null` for a missing record, the
      record without `_id` when no list is given, else exactly the listed
      fields the record has. */
  function ExtractNamedFields(record: Option<Record>, fields: Option<seq<string>>): (v: Value)
    ensures record.None? <==> v == Null
    ensures record.Some? ==> v.Obj?
    ensures record.Some? && fields.None? ==>
      forall f :: f in v.fields <==> f in record.value && f != "_id"
    ensures record.Some? && fields.Some? ==>
      forall f :: f in v.fields <==> f in fields.value && f in record.value
    ensures record.Some? ==> forall f :: f in v.fields ==> v.fields[f] == record.value[f]
  {
    if record.None? then Null
    else if fields.None? then Obj(record.value - {"_id"})
    else Obj(map f | f in fields.value && f in record.value :: record.value[f])
  }

  // ---------------------------------------------------------------------
  // The related list on a parent

  /** `{$elemMatch: {Id: id}}` on one list entry. */
  predicate HasId(e: Value, id: Value)
  {
    e.Obj? && Get(e.fields, "Id") == id
  }

  /** The `Id` of a child snapshot. */
  function ChildId(child: Value): Value
  {
    Get(AsRecord(child), "Id")
  }

  /** The position the positional operator `$` selects: the first entry with the id, or -1. */
  function FirstMatch(list: seq<Value>, id: Value): (i: int)
    ensures -1 <= i < |list|
    ensures i >= 0 ==> HasId(list[i], id)
    ensures forall j :: 0 <= j < |list| && (i == -1 || j < i) ==> !HasId(list[j], id)
    decreases |list|
  {
    if list == [] then -1
    else if HasId(list[0], id) then 0
    else
      var k := FirstMatch(list[1..], id);
      if k == -1 then -1 else k + 1
  }

  /** The list after `addOrUpdateChildInCollection`: the first entry with
      the child's `Id` is overwritten, otherwise the child is appended. */
  function AddOrUpdateList(list: seq<Value>, child: Value): (r: seq<Value>)
    ensures FirstMatch(list, ChildId(child)) >= 0 ==>
      var i := FirstMatch(list, ChildId(child));
      |r| == |list| && r[i] == child && forall j :: 0 <= j < |list| && j != i ==> r[j] == list[j]
    ensures FirstMatch(list, ChildId(child)) == -1 ==> r == list + [child]
  {
    var i := FirstMatch(list, ChildId(child));
    if i >= 0 then list[i := child] else list + [child]
  }

  /** `$pull: {Id: id}`: every entry with the id goes, the rest keep their order. */
  function Without(list: seq<Value>, id: Value): (r: seq<Value>)
    ensures forall x :: x in r <==> x in list && !HasId(x, id)
    ensures |r| <= |list|
    decreases |list|
  {
    if list == [] then []
    else if HasId(list[0], id) then Without(list[1..], id)
    else [list[0]] + Without(list[1..], id)
  }

  /** The entries `$pull: {Id: id}` leaves in place. */
  function NotWithId(id: Value): Value -> bool
  {
    x => !HasId(x, id)
  }

  /** The positions of `list` that `Without(list, id)` keeps, in order:
      the result is the order-preserving filter of the entries without `id`. */
  ghost function WithoutPositions(list: seq<Value>, id: Value): (idx: seq<nat>)
    ensures FilteredAt(Without(list, id), list, idx, NotWithId(id))
    decreases |list|
  {
    if list == [] then []
    else
      var rest := WithoutPositions(list[1..], id);
      WithoutStep(list, id, rest);
      if HasId(list[0], id) then ShiftedPositions(rest) else [0] + ShiftedPositions(rest)
  }

  /** One step of WithoutPositions: the first entry, then the rest's positions one place along. */
  lemma WithoutStep(list: seq<Value>, id: Value, rest: seq<nat>)
    requires list != []
    requires FilteredAt(Without(list[1..], id), list[1..], rest, NotWithId(id))
    ensures FilteredAt(Without(list, id), list,
                       if HasId(list[0], id) then ShiftedPositions(rest) else [0] + ShiftedPositions(rest),
                       NotWithId(id))
  {
    var tail := list[1..];
    assert list == [list[0]] + tail;
    assert NotWithId(id)(list[0]) == !HasId(list[0], id);
    FilteredAtCons(list[0], tail, Without(tail, id), rest, NotWithId(id));
  }

  /** No two object entries share an `Id`. */
  predicate UniqueIds(list: seq<Value>)
  {
    forall i, j :: 0 <= i < j < |list| && list[i].Obj? && list[j].Obj? ==>
      Get(list[i].fields, "Id") != Get(list[j].fields, "Id")
  }

  /** Adding or updating a child snapshot never duplicates an `Id`. */
  lemma AddOrUpdateKeepsIdsUnique(list: seq<Value>, child: Value)
    requires UniqueIds(list) && child.Obj?
    ensures UniqueIds(AddOrUpdateList(list, child))
  {
    var id := ChildId(child);
    var r := AddOrUpdateList(list, child);
    var i := FirstMatch(list, id);
    forall a, b | 0 <= a < b < |r| && r[a].Obj? && r[b].Obj?
      ensures Get(r[a].fields, "Id") != Get(r[b].fields, "Id")
    {
      if i >= 0 {
        if a == i {
          assert Get(list[i].fields, "Id") == Get(r[a].fields, "Id");
        } else if b == i {
          assert Get(list[i].fields, "Id") == Get(r[b].fields, "Id");
        }
      } else if b == |list| {
        assert !HasId(list[a], id);
      }
    }
  }

  /** Adding the same child twice is the same as adding it once. */
  lemma AddOrUpdateIdempotent(list: seq<Value>, child: Value)
    requires child.Obj?
    ensures AddOrUpdateList(AddOrUpdateList(list, child), child) == AddOrUpdateList(list, child)
  {
    var id := ChildId(child);
    var once := AddOrUpdateList(list, child);
    var i := FirstMatch(list, id);
    assert HasId(child, id);
    if i >= 0 {
      assert FirstMatch(once, id) == i by {
        FirstMatchAt(once, id, i);
      }
    } else {
      assert FirstMatch(once, id) == |list| by {
        FirstMatchAt(once, id, |list|);
      }
    }
  }

  /** The first match is at `i` when the entry there matches and none before does. */
  lemma {:induction false} FirstMatchAt(list: seq<Value>, id: Value, i: int)
    requires 0 <= i < |list| && HasId(list[i], id)
    requires forall j :: 0 <= j < i ==> !HasId(list[j], id)
    ensures FirstMatch(list, id) == i
    decreases |list|
  {
    if i > 0 {
      FirstMatchAt(list[1..], id, i - 1);
    }
  }

  /** Removing a child undoes adding it: the list is as before, without that `Id`. */
  lemma RemoveUndoesAdd(list: seq<Value>, child: Value)
    requires child.Obj?
    ensures Without(AddOrUpdateList(list, child), ChildId(child)) == Without(list, ChildId(child))
  {
    var id := ChildId(child);
    var i := FirstMatch(list, id);
    if i >= 0 {
      WithoutReplaceMatch(list, id, i, child);
    } else {
      WithoutAppend(list, [child], id);
    }
  }

  lemma {:induction false} WithoutAppend(a: seq<Value>, b: seq<Value>, id: Value)
    ensures Without(a + b, id) == Without(a, id) + Without(b, id)
    decreases |a|
  {
    if a != [] {
      assert (a + b)[1..] == a[1..] + b;
      WithoutAppend(a[1..], b, id);
    } else {
      assert a + b == b;
    }
  }

  /** Overwriting a matching entry with another matching one leaves the filtered list as it was. */
  lemma {:induction false} WithoutReplaceMatch(list: seq<Value>, id: Value, i: int, x: Value)
    requires 0 <= i < |list| && HasId(list[i], id) && HasId(x, id)
    ensures Without(list[i := x], id) == Without(list, id)
    decreases |list|
  {
    if i > 0 {
      assert list[i := x][1..] == list[1..][i - 1 := x];
      WithoutReplaceMatch(list[1..], id, i - 1, x);
    } else {
      assert list[i := x][1..] == list[1..];
    }
  }

  /** The new value of a parent's related-list field, or `None` when the
      field holds something that is not a list. */
  function RelatedListAfterAdd(field: Value, child: Value): (r: Option<Value>)
    ensures field == Undefined ==> r == Some(Arr([child]))
    ensures field.Arr? ==> r == Some(Arr(AddOrUpdateList(field.items, child)))
    ensures !(field == Undefined || field.Arr?) ==> r.None?
  {
    match field
    case Undefined => Some(Arr([child]))
    case Arr(items) => Some(Arr(AddOrUpdateList(items, child)))
    case _ => None
  }

  /** The parent documents after `addOrUpdateChildInCollection(parentId, relatedListName, child)`. */
  function AddOrUpdateChildDocs(docs: Docs, parentId: Value, relatedListName: string, child: Value): (d: Docs)
    ensures d.Keys == docs.Keys
    ensures forall k :: k in docs && k != parentId ==> d[k] == docs[k]
    ensures !Truthy(parentId) ==> d == docs
    ensures Truthy(parentId) && parentId in docs ==>
      match RelatedListAfterAdd(Get(docs[parentId], relatedListName), child)
      case None => d[parentId] == docs[parentId]
      case Some(v) => d[parentId] == docs[parentId][relatedListName := v]
  {
    if !Truthy(parentId) || parentId !in docs then docs
    else
      match RelatedListAfterAdd(Get(docs[parentId], relatedListName), child)
      case None => docs
      case Some(v) => docs[parentId := docs[parentId][relatedListName := v]]
  }

  /** The parent documents after `removeChildFromCollection(parentId, childId, relatedListName)`. */
  function RemoveChildDocs(docs: Docs, parentId: Value, childId: Value, relatedListName: string): (d: Docs)
    ensures d.Keys == docs.Keys
    ensures forall k :: k in docs && k != parentId ==> d[k] == docs[k]
    ensures parentId in docs && Get(docs[parentId], relatedListName).Arr? ==>
      d[parentId] == docs[parentId][relatedListName := Arr(Without(Get(docs[parentId], relatedListName).items, childId))]
    ensures parentId in docs && !Get(docs[parentId], relatedListName).Arr? ==> d[parentId] == docs[parentId]
  {
    if parentId in docs && Get(docs[parentId], relatedListName).Arr? then
      docs[parentId := docs[parentId][relatedListName := Arr(Without(Get(docs[parentId], relatedListName).items, childId))]]
    else docs
  }

  /** `addOrUpdateChildInCollection`. */
  method AddOrUpdateChildInCollection(parentId: Value, relatedListName: string, child: Value, parentCollection: Collection)
    modifies parentCollection
    ensures parentCollection.docs == AddOrUpdateChildDocs(old(parentCollection.docs), parentId, relatedListName, child)
    ensures parentCollection.hooks == old(parentCollection.hooks) && parentCollection.nextSerial == old(parentCollection.nextSerial)
  {
    parentCollection.docs := AddOrUpdateChildDocs(parentCollection.docs, parentId, relatedListName, child);
  }

  /** `removeChildFromCollection`. */
  method RemoveChildFromCollection(parentId: Value, childId: Value, relatedListName: string, parentCollection: Collection)
    modifies parentCollection
    ensures parentCollection.docs == RemoveChildDocs(old(parentCollection.docs), parentId, childId, relatedListName)
    ensures parentCollection.hooks == old(parentCollection.hooks) && parentCollection.nextSerial == old(parentCollection.nextSerial)
  {
    parentCollection.docs := RemoveChildDocs(parentCollection.docs, parentId, childId, relatedListName);
  }

  /** The child documents after a parent snapshot is written onto every
      child whose lookup field holds the parent's `Id`. */
  function PropagateSnapshot(docs: Docs, lookupField: string, parentId: Value, parentFieldName: string, snapshot: Value): (d: Docs)
    ensures d.Keys == docs.Keys
    ensures forall k :: k in docs && Get(docs[k], lookupField) == parentId ==> d[k] == docs[k][parentFieldName := snapshot]
    ensures forall k :: k in docs && Get(docs[k], lookupField) != parentId ==> d[k] == docs[k]
  {
    map k | k in docs :: if Get(docs[k], lookupField) == parentId then docs[k][parentFieldName := snapshot] else docs[k]
  }

  /** `k` is the key of a child of the parent `parentId`. */
  predicate IsChild(docs: Docs, lookupField: string, parentId: Value, k: Value)
  {
    k in docs && Get(docs[k], lookupField) == parentId
  }

  /** `childCollection.find({[lookupField]: parentId}).map(extract)`: the
      matching children, each once, in the store's own order. */
  method FindChildren(docs: Docs, lookupField: string, parentId: Value, fields: Option<seq<string>>)
    returns (children: seq<Value>, keys: seq<Value>)
    ensures forall k :: k in keys <==> IsChild(docs, lookupField, parentId, k)
    ensures forall i, j :: 0 <= i < j < |keys| ==> keys[i] != keys[j]
    ensures |children| == |keys|
    ensures forall i :: 0 <= i < |keys| ==> keys[i] in docs && children[i] == ExtractNamedFields(Some(docs[keys[i]]), fields)
  {
    children, keys := [], [];
    var remaining := docs.Keys;
    while remaining != {}
      invariant remaining <= docs.Keys
      invariant |children| == |keys|
      invariant forall i :: 0 <= i < |keys| ==> keys[i] in docs && keys[i] !in remaining
      invariant forall i :: 0 <= i < |keys| ==> children[i] == ExtractNamedFields(Some(docs[keys[i]]), fields)
      invariant forall i, j :: 0 <= i < j < |keys| ==> keys[i] != keys[j]
      invariant forall x :: x in keys <==> IsChild(docs, lookupField, parentId, x) && x !in remaining
      decreases remaining
    {
      var k :| k in remaining;
      if Get(docs[k], lookupField) == parentId {
        children := children + [ExtractNamedFields(Some(docs[k]), fields)];
        keys := keys + [k];
      }
      remaining := remaining - {k};
    }
  }

  /** The names of the methods the singleton object offers; a call to any
      other name throws. */
  const SingletonMethods: set<string> := {
    "login", "setLogger", "getConnection", "syncCollection", "syncMetadata", "runSync",
    "onReceived", "_notifyReceived", "query", "apex", "find", "retrieve", "create",
    "update", "upsert", "destroy", "_invokeSobjectMethod" }

  /** Calling `sfSync[name](...)` on the singleton. */
  function CallOnSingleton(name: string): (r: Result<bool>)
    ensures r.Ok? <==> name in SingletonMethods
  {
    if name in SingletonMethods then Ok(true) else Threw(TypeError("sfSync." + name + " is not a function"))
  }

  class Lookup {
    const def: LookupDefinition
    const childCollection: Collection
    /** `parentFields` after the constructor's defaults. */
    const parentFields: seq<string> := ParentFields(def.parentFields)

    constructor(def: LookupDefinition, childCollection: Collection)
      ensures this.def == def && this.childCollection == childCollection
      ensures parentFields == ParentFields(def.parentFields)
    {
      this.def := def;
      this.childCollection := childCollection;
    }

    /** The parent snapshot written onto children. */
    function Snapshot(parent: Option<Record>): (s: Value)
      ensures parent.None? ==> s == Null
      ensures parent.Some? ==>
        && s.Obj?
        && (forall f :: f in s.fields <==> f in parent.value && f in parentFields)
        && (forall f :: f in s.fields ==> s.fields[f] == parent.value[f])
    {
      ExtractNamedFields(parent, Some(parentFields))
    }

    /** `registerEvents` as written: its first call is `sfSync.onSynced`,
        which the singleton does not have, so it throws before registering
        anything. */
    function RegisterEventsAsWritten(): (r: Result<bool>)
      ensures r.Threw?
    {
      CallOnSingleton("onSynced")
    }

    /** The bus listeners once this lookup has registered for its parent's events. */
    function ListenersAfterRegister(l: Listeners): (l': Listeners)
      ensures ListenersOf(l', EventKey("inserted", def.parentEntity)) ==
        ListenersOf(l, EventKey("inserted", def.parentEntity)) + [Handler(this, "_onParentInserted")]
      ensures ListenersOf(l', EventKey("updated", def.parentEntity)) ==
        ListenersOf(l, EventKey("updated", def.parentEntity)) + [Handler(this, "_onParentUpdated")]
      ensures forall k :: k != EventKey("inserted", def.parentEntity) && k != EventKey("updated", def.parentEntity) ==>
        ListenersOf(l', k) == ListenersOf(l, k)
    {
      AddListener(AddListener(l, EventKey("inserted", def.parentEntity), Handler(this, "_onParentInserted")),
                  EventKey("updated", def.parentEntity), Handler(this, "_onParentUpdated"))
    }

    /** How many `after` hooks `registerEvents` installs on the child collection. */
    function EventHookCount(): nat
    {
      if Named(def.relatedListName) then 3 else 0
    }

    /** The `after` hooks `registerEvents` installs on the child collection
        when the next hook serial is `n`: update, insert and remove, in that
        order, given a related list; none without one. */
    function EventHooks(n: nat): (hs: set<Registration>)
      ensures forall r :: r in hs ==> r.timing == After && n <= r.serial < n + EventHookCount()
    {
      if Named(def.relatedListName) then
        { Registration(After, Update, Handler(this, "_onChildUpdated"), n),
          Registration(After, Insert, Handler(this, "_onChildUpdated"), n + 1),
          Registration(After, Remove, Handler(this, "_onChildRemovedHook"), n + 2) }
      else {}
    }

    /** `registerEvents`, calling `onReceived` as evidently intended: the
        parent's `inserted` and `updated` events, and, with a related list,
        the child collection's `after` hooks. */
    method RegisterEvents(bus: SyncEvents)
      requires childCollection.Valid()
      modifies bus, childCollection
      ensures childCollection.Valid()
      ensures bus.listeners == ListenersAfterRegister(old(bus.listeners))
      ensures bus.deliveries == old(bus.deliveries) && bus.notices == old(bus.notices)
      ensures !Named(def.relatedListName) ==> childCollection.hooks == old(childCollection.hooks)
      ensures Named(def.relatedListName) ==>
        var n := old(childCollection.nextSerial);
        childCollection.hooks == old(childCollection.hooks) + {
          Registration(After, Update, Handler(this, "_onChildUpdated"), n),
          Registration(After, Insert, Handler(this, "_onChildUpdated"), n + 1),
          Registration(After, Remove, Handler(this, "_onChildRemovedHook"), n + 2) }
      ensures childCollection.hooks == old(childCollection.hooks) + EventHooks(old(childCollection.nextSerial))
      ensures childCollection.nextSerial == old(childCollection.nextSerial) + EventHookCount()
      ensures childCollection.docs == old(childCollection.docs)
    {
      bus.OnReceived(One("inserted"), def.parentEntity, Handler(this, "_onParentInserted"));
      bus.OnReceived(One("updated"), def.parentEntity, Handler(this, "_onParentUpdated"));
      if Named(def.relatedListName) {
        var u := childCollection.AddHook(After, Update, Handler(this, "_onChildUpdated"));
        var i := childCollection.AddHook(After, Insert, Handler(this, "_onChildUpdated"));
        var r := childCollection.AddHook(After, Remove, Handler(this, "_onChildRemovedHook"));
      }
    }

    /** `deregister`: its body is empty, so nothing registered is removed. */
    method Deregister(bus: SyncEvents)
      ensures bus.listeners == old(bus.listeners)
      ensures childCollection.hooks == old(childCollection.hooks)
    {
    }

    /** The record `onChildSynced(rec)` returns, given the parent documents. */
    function SyncedRecord(rec: Record, parentDocs: Docs): (r: Record)
      ensures var fk := Get(rec, def.lookupField);
        && (Truthy(fk) && Named(def.parentFieldName) && fk in parentDocs ==>
              r == rec[def.parentFieldName.value := Snapshot(Some(parentDocs[fk]))])
        && (Truthy(fk) && !(Named(def.parentFieldName) && fk in parentDocs) ==> r == rec)
        && (!Truthy(fk) && Named(def.parentFieldName) ==> r == rec[def.parentFieldName.value := Null])
        && (!Truthy(fk) && !Named(def.parentFieldName) ==> r == rec)
    {
      var fk := Get(rec, def.lookupField);
      if !Named(def.parentFieldName) then rec
      else if !Truthy(fk) then rec[def.parentFieldName.value := Null]
      else if fk in parentDocs then rec[def.parentFieldName.value := Snapshot(Some(parentDocs[fk]))]
      else rec
    }

    /** The parent documents once `onChildSynced(rec)` has run: the related
        list of the parent named by a non-empty foreign key gets the child's
        snapshot, taken after the parent snapshot was written. */
    function ParentDocsAfterSync(rec: Record, parentDocs: Docs): (d: Docs)
      ensures var fk := Get(rec, def.lookupField);
        && (Truthy(fk) && Named(def.relatedListName) ==>
              d == AddOrUpdateChildDocs(parentDocs, fk, def.relatedListName.value,
                     ExtractNamedFields(Some(SyncedRecord(rec, parentDocs)), def.relatedListFields)))
        && (!(Truthy(fk) && Named(def.relatedListName)) ==> d == parentDocs)
    {
      var fk := Get(rec, def.lookupField);
      if Truthy(fk) && Named(def.relatedListName) then
        AddOrUpdateChildDocs(parentDocs, fk, def.relatedListName.value,
          ExtractNamedFields(Some(SyncedRecord(rec, parentDocs)), def.relatedListFields))
      else parentDocs
    }

    /** `onChildSynced(rec)`: returns the record with the parent snapshot
        and, with a related list, updates the parent's list. */
    method OnChildSynced(rec: Record) returns (r: Record)
      modifies def.parentCollection
      ensures r == SyncedRecord(rec, old(def.parentCollection.docs))
      ensures def.parentCollection.docs == ParentDocsAfterSync(rec, old(def.parentCollection.docs))
      ensures def.parentCollection.hooks == old(def.parentCollection.hooks)
      ensures def.parentCollection.nextSerial == old(def.parentCollection.nextSerial)
    {
      r := rec;
      var fk := Get(rec, def.lookupField);
      if Truthy(fk) {
        if Named(def.parentFieldName) {
          var parent := def.parentCollection.FindOne(fk);
          if parent.Some? {
            r := r[def.parentFieldName.value := Snapshot(parent)];
          }
        }
        if Named(def.relatedListName) {
          AddOrUpdateChildInCollection(fk, def.relatedListName.value,
            ExtractNamedFields(Some(r), def.relatedListFields), def.parentCollection);
        }
      } else if Named(def.parentFieldName) {
        r := r[def.parentFieldName.value := Null];
      }
    }

    /** The parent documents once `onChildRemoved(rec)` has run. */
    function ParentDocsAfterRemove(rec: Record, parentDocs: Docs): (d: Docs)
      ensures Named(def.relatedListName) ==>
        d == RemoveChildDocs(parentDocs, Get(rec, def.lookupField), IdOf(rec), def.relatedListName.value)
      ensures !Named(def.relatedListName) ==> d == parentDocs
    {
      if Named(def.relatedListName) then
        RemoveChildDocs(parentDocs, Get(rec, def.lookupField), IdOf(rec), def.relatedListName.value)
      else parentDocs
    }

    /** `onChildRemoved(rec)`: pulls the child from its parent's list. */
    method OnChildRemoved(rec: Record)
      modifies def.parentCollection
      ensures def.parentCollection.docs == ParentDocsAfterRemove(rec, old(def.parentCollection.docs))
      ensures def.parentCollection.hooks == old(def.parentCollection.hooks)
      ensures def.parentCollection.nextSerial == old(def.parentCollection.nextSerial)
    {
      if Named(def.relatedListName) {
        RemoveChildFromCollection(Get(rec, def.lookupField), IdOf(rec), def.relatedListName.value, def.parentCollection);
      }
    }

    /** `_onParentUpdated(parent)`: the parent snapshot goes onto every child
        of that parent; nothing else changes. */
    method OnParentUpdated(parent: Record)
      modifies childCollection
      ensures childCollection.hooks == old(childCollection.hooks) && childCollection.nextSerial == old(childCollection.nextSerial)
      ensures Named(def.parentFieldName) ==>
        childCollection.docs == PropagateSnapshot(old(childCollection.docs), def.lookupField, IdOf(parent),
                                                  def.parentFieldName.value, Snapshot(Some(parent)))
      ensures !Named(def.parentFieldName) ==> childCollection.docs == old(childCollection.docs)
    {
      if Named(def.parentFieldName) {
        childCollection.docs := PropagateSnapshot(childCollection.docs, def.lookupField, IdOf(parent),
                                                  def.parentFieldName.value, Snapshot(Some(parent)));
      }
    }

    /** The child documents once `_onParentUpdated(parent)` has run. */
    function SnapshotDocs(docs: Docs, parent: Record): Docs
    {
      if Named(def.parentFieldName) then
        PropagateSnapshot(docs, def.lookupField, IdOf(parent), def.parentFieldName.value, Snapshot(Some(parent)))
      else docs
    }

    /** `_onParentInserted(parent)`: the snapshot is propagated, then, with a
        related list, the parent's list is rebuilt from the children found,
        and only when there is at least one. */
    method OnParentInserted(parent: Record) returns (children: seq<Value>, keys: seq<Value>)
      modifies childCollection, def.parentCollection
      ensures childCollection.hooks == old(childCollection.hooks) && childCollection.nextSerial == old(childCollection.nextSerial)
      ensures def.parentCollection.hooks == old(def.parentCollection.hooks)
      ensures def.parentCollection.nextSerial == old(def.parentCollection.nextSerial)
      ensures var snap := SnapshotDocs(old(childCollection.docs), parent);
        && (Named(def.relatedListName) ==>
              && (forall k :: k in keys <==> IsChild(snap, def.lookupField, IdOf(parent), k))
              && (forall i, j :: 0 <= i < j < |keys| ==> keys[i] != keys[j])
              && |children| == |keys|
              && forall i :: 0 <= i < |keys| ==>
                   keys[i] in snap && children[i] == ExtractNamedFields(Some(snap[keys[i]]), def.relatedListFields))
        && (!Named(def.relatedListName) ==> children == [] && keys == [])
        && var parents := if childCollection == def.parentCollection then snap else old(def.parentCollection.docs);
           var rebuilt := if Named(def.relatedListName) && |children| > 0 && IdOf(parent) in parents
                          then parents[IdOf(parent) := parents[IdOf(parent)][def.relatedListName.value := Arr(children)]]
                          else parents;
           && def.parentCollection.docs == rebuilt
           && (childCollection != def.parentCollection ==> childCollection.docs == snap)
    {
      OnParentUpdated(parent);
      children, keys := [], [];
      if Named(def.relatedListName) {
        children, keys := FindChildren(childCollection.docs, def.lookupField, IdOf(parent), def.relatedListFields);
        var id := IdOf(parent);
        if |children| > 0 && id in def.parentCollection.docs {
          def.parentCollection.docs := def.parentCollection.docs[id := def.parentCollection.docs[id][def.relatedListName.value := Arr(children)]];
        }
      }
    }

    /** `_onChildUpdated(userId, record)`: the after-insert/update hook,
        installed only with a related list. */
    method OnChildUpdated(record: Record)
      requires Named(def.relatedListName)
      modifies def.parentCollection
      ensures def.parentCollection.hooks == old(def.parentCollection.hooks)
      ensures def.parentCollection.nextSerial == old(def.parentCollection.nextSerial)
      ensures def.parentCollection.docs == AddOrUpdateChildDocs(old(def.parentCollection.docs),
        Get(record, def.lookupField), def.relatedListName.value, ExtractNamedFields(Some(record), def.relatedListFields))
    {
      AddOrUpdateChildInCollection(Get(record, def.lookupField), def.relatedListName.value,
        ExtractNamedFields(Some(record), def.relatedListFields), def.parentCollection);
    }
  }
}
