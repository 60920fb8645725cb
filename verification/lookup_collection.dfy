/** The lookups of one synchronised collection, applied together. */
module LookupCollection {
  import opened Values
  import opened Store
  import opened Events
  import opened Lookup

  /** The definitions without a related list, in their given order. */
  function WithoutList(defs: seq<LookupDefinition>): (r: seq<LookupDefinition>)
    ensures forall i :: 0 <= i < |r| ==> !Named(r[i].relatedListName)
    decreases |defs|
  {
    if defs == [] then []
    else (if Named(defs[0].relatedListName) then [] else [defs[0]]) + WithoutList(defs[1..])
  }

  /** The definitions with a related list, in their given order. */
  function WithList(defs: seq<LookupDefinition>): (r: seq<LookupDefinition>)
    ensures forall i :: 0 <= i < |r| ==> Named(r[i].relatedListName)
    decreases |defs|
  {
    if defs == [] then []
    else (if Named(defs[0].relatedListName) then [defs[0]] else []) + WithList(defs[1..])
  }

  /** The constructor's `sort`: its comparator only ever says "a definition
      with a related list goes after", so the result is the two groups with
      the list-less ones first. */
  function OrderDefinitions(defs: seq<LookupDefinition>): seq<LookupDefinition>
  {
    WithoutList(defs) + WithList(defs)
  }

  /** Every definition without a related list precedes every one with one. */
  lemma OrderDefinitionsPartitioned(defs: seq<LookupDefinition>)
    ensures var r := OrderDefinitions(defs);
      forall i, j :: 0 <= i < |r| && 0 <= j < |r| && Named(r[i].relatedListName) && !Named(r[j].relatedListName) ==> j < i
  {
    var r := OrderDefinitions(defs);
    var n := |WithoutList(defs)|;
    assert forall k :: 0 <= k < n ==> r[k] == WithoutList(defs)[k];
    assert forall k :: n <= k < |r| ==> r[k] == WithList(defs)[k - n];
  }

  /** The ordering is a permutation: nothing is dropped or duplicated. */
  lemma {:induction false} OrderDefinitionsPermutation(defs: seq<LookupDefinition>)
    ensures multiset(OrderDefinitions(defs)) == multiset(defs)
    decreases |defs|
  {
    if defs != [] {
      OrderDefinitionsPermutation(defs[1..]);
      assert defs == [defs[0]] + defs[1..];
    }
  }

  /** The two-argument and three-argument forms of the constructor call:
      in the second, the resource name lands where the definitions are
      expected. */
  datatype DefinitionsArgument = Definitions(defs: seq<LookupDefinition>) | ResourceName(name: string)

  /** `lookupDefinitions.sort(...)`: only a list has `sort`. */
  function SortDefinitions(arg: DefinitionsArgument): (r: Result<seq<LookupDefinition>>)
    ensures r.Ok? <==> arg.Definitions?
    ensures arg.Definitions? ==> r == Ok(OrderDefinitions(arg.defs))
  {
    match arg
    case Definitions(defs) => Ok(OrderDefinitions(defs))
    case ResourceName(_) => Threw(TypeError("lookupDefinitions.sort is not a function"))
  }

  /** `new LookupCollection(collection, resource, lookupDefinitions)` as
      the sync constructs it: always throws. */
  function ConstructAsWritten(resource: string, defs: seq<LookupDefinition>): (r: Result<seq<LookupDefinition>>)
    ensures r.Threw?
  {
    SortDefinitions(ResourceName(resource))
  }

  /** The parent documents of every lookup, keyed by their collection. */
  type ParentState = map<Collection, Docs>

  function StateOf(cs: set<Collection>): (st: ParentState)
    reads cs
    ensures st.Keys == cs
  {
    map c | c in cs :: c.docs
  }

  /** A state that differs from `before` at `pc` alone is `before` updated at `pc`. */
  lemma StateChangedAt(before: ParentState, after: ParentState, pc: Collection)
    requires pc in before && after.Keys == before.Keys
    requires forall c :: c in before && c != pc ==> after[c] == before[c]
    ensures after == before[pc := after[pc]]
  {
  }

  /** `onChildSynced` as a left fold: each lookup gets the record the
      previous one returned, and sees the parent documents as earlier
      lookups left them. */
  function SyncFold(ls: seq<Lookup>, rec: Record, st: ParentState): (res: (Record, ParentState))
    requires forall i :: 0 <= i < |ls| ==> ls[i].def.parentCollection in st
    ensures res.1.Keys == st.Keys
    decreases |ls|
  {
    if ls == [] then (rec, st)
    else
      var pc := ls[0].def.parentCollection;
      SyncFold(ls[1..], ls[0].SyncedRecord(rec, st[pc]), st[pc := ls[0].ParentDocsAfterSync(rec, st[pc])])
  }

  /** `onChildRemoved` over every lookup, each seeing the previous ones' effect. */
  function RemoveFold(ls: seq<Lookup>, rec: Record, st: ParentState): (res: ParentState)
    requires forall i :: 0 <= i < |ls| ==> ls[i].def.parentCollection in st
    ensures res.Keys == st.Keys
    decreases |ls|
  {
    if ls == [] then st
    else
      var pc := ls[0].def.parentCollection;
      RemoveFold(ls[1..], rec, st[pc := ls[0].ParentDocsAfterRemove(rec, st[pc])])
  }

  /** One step of `SyncFold` from position `i`. */
  lemma SyncFoldStep(ls: seq<Lookup>, i: nat, rec: Record, st: ParentState)
    requires i < |ls|
    requires forall j :: 0 <= j < |ls| ==> ls[j].def.parentCollection in st
    ensures var pc := ls[i].def.parentCollection;
      SyncFold(ls[i..], rec, st)
      == SyncFold(ls[i + 1..], ls[i].SyncedRecord(rec, st[pc]), st[pc := ls[i].ParentDocsAfterSync(rec, st[pc])])
  {
    assert ls[i..][1..] == ls[i + 1..];
  }

  /** One step of `RemoveFold` from position `i`. */
  lemma RemoveFoldStep(ls: seq<Lookup>, i: nat, rec: Record, st: ParentState)
    requires i < |ls|
    requires forall j :: 0 <= j < |ls| ==> ls[j].def.parentCollection in st
    ensures var pc := ls[i].def.parentCollection;
      RemoveFold(ls[i..], rec, st) == RemoveFold(ls[i + 1..], rec, st[pc := ls[i].ParentDocsAfterRemove(rec, st[pc])])
  {
    assert ls[i..][1..] == ls[i + 1..];
  }

  /** The names lookups write onto a child. */
  function ParentFieldNames(ls: seq<Lookup>): set<string>
  {
    set i | 0 <= i < |ls| && Named(ls[i].def.parentFieldName) :: ls[i].def.parentFieldName.value
  }

  /** Lookups only ever add parent snapshots: every other field of the
      child keeps its value, and no field disappears. */
  lemma {:induction false} SyncFoldKeepsOwnFields(ls: seq<Lookup>, rec: Record, st: ParentState)
    requires forall i :: 0 <= i < |ls| ==> ls[i].def.parentCollection in st
    ensures var r := SyncFold(ls, rec, st).0;
      && rec.Keys <= r.Keys
      && r.Keys <= rec.Keys + ParentFieldNames(ls)
      && forall f :: f in rec && f !in ParentFieldNames(ls) ==> r[f] == rec[f]
    decreases |ls|
  {
    if ls != [] {
      var pc := ls[0].def.parentCollection;
      var rec' := ls[0].SyncedRecord(rec, st[pc]);
      var st' := st[pc := ls[0].ParentDocsAfterSync(rec, st[pc])];
      SyncFoldKeepsOwnFields(ls[1..], rec', st');
      assert ParentFieldNames(ls) == ParentFieldNames(ls[1..]) +
        (if Named(ls[0].def.parentFieldName) then {ls[0].def.parentFieldName.value} else {}) by {
        assert forall i :: 0 < i < |ls| ==> ls[i] == ls[1..][i - 1];
        assert forall i :: 0 <= i < |ls| - 1 ==> ls[1..][i] == ls[i + 1];
      }
    }
  }

  /** Without related lists, syncing a child leaves every parent document as it was. */
  lemma {:induction false} SyncFoldWithoutListsKeepsParents(ls: seq<Lookup>, rec: Record, st: ParentState)
    requires forall i :: 0 <= i < |ls| ==> ls[i].def.parentCollection in st
    requires forall i :: 0 <= i < |ls| ==> !Named(ls[i].def.relatedListName)
    ensures SyncFold(ls, rec, st).1 == st
    decreases |ls|
  {
    if ls != [] {
      var pc := ls[0].def.parentCollection;
      assert st[pc := ls[0].ParentDocsAfterSync(rec, st[pc])] == st;
      SyncFoldWithoutListsKeepsParents(ls[1..], ls[0].SyncedRecord(rec, st[pc]), st);
    }
  }

  /** The bus listeners after `init`: every lookup's registrations, in order. */
  function RegisteredListeners(ls: seq<Lookup>, l: Listeners): Listeners
    decreases |ls|
  {
    if ls == [] then l else RegisteredListeners(ls[1..], ls[0].ListenersAfterRegister(l))
  }

  /** The collection hooks the lookups `ls` install in turn, the first taking serial `n`. */
  function LookupHooks(ls: seq<Lookup>, n: nat): set<Registration>
    decreases |ls|
  {
    if ls == [] then {} else ls[0].EventHooks(n) + LookupHooks(ls[1..], n + ls[0].EventHookCount())
  }

  /** How many hook serials the lookups `ls` use. */
  function LookupHookCount(ls: seq<Lookup>): nat
    decreases |ls|
  {
    if ls == [] then 0 else ls[0].EventHookCount() + LookupHookCount(ls[1..])
  }

  /** Registering from position `i` on: lookup `i` first, then the rest. */
  lemma RegisteredListenersAdvance(ls: seq<Lookup>, i: nat, l: Listeners)
    requires i < |ls|
    ensures RegisteredListeners(ls[i + 1..], ls[i].ListenersAfterRegister(l)) == RegisteredListeners(ls[i..], l)
  {
    assert ls[i..][1..] == ls[i + 1..];
  }

  /** After lookup `i` installs its hooks at serial `n`, the hooks present
      plus those still to come are the same as before it did. */
  lemma LookupHooksAdvance(ls: seq<Lookup>, i: nat, hooks: set<Registration>, n: nat)
    requires i < |ls|
    ensures (hooks + ls[i].EventHooks(n)) + LookupHooks(ls[i + 1..], n + ls[i].EventHookCount())
            == hooks + LookupHooks(ls[i..], n)
    ensures (n + ls[i].EventHookCount()) + LookupHookCount(ls[i + 1..]) == n + LookupHookCount(ls[i..])
  {
    assert ls[i..][1..] == ls[i + 1..];
  }

  /** Registering never drops a listener already present. */
  lemma {:induction false} RegisteredListenersGrow(ls: seq<Lookup>, l: Listeners, key: string, h: Handler)
    requires h in ListenersOf(l, key)
    ensures h in ListenersOf(RegisteredListeners(ls, l), key)
    decreases |ls|
  {
    if ls != [] {
      var l' := ls[0].ListenersAfterRegister(l);
      assert h in ListenersOf(l', key);
      RegisteredListenersGrow(ls[1..], l', key, h);
    }
  }

  /** After `init`, every lookup listens for its parent's `inserted` and `updated` events. */
  lemma {:induction false} EveryLookupListens(ls: seq<Lookup>, l: Listeners, i: int)
    requires 0 <= i < |ls|
    ensures var r := RegisteredListeners(ls, l);
      && Handler(ls[i], "_onParentInserted") in ListenersOf(r, EventKey("inserted", ls[i].def.parentEntity))
      && Handler(ls[i], "_onParentUpdated") in ListenersOf(r, EventKey("updated", ls[i].def.parentEntity))
    decreases |ls|
  {
    var l' := ls[0].ListenersAfterRegister(l);
    if i == 0 {
      RegisteredListenersGrow(ls[1..], l', EventKey("inserted", ls[0].def.parentEntity), Handler(ls[0], "_onParentInserted"));
      RegisteredListenersGrow(ls[1..], l', EventKey("updated", ls[0].def.parentEntity), Handler(ls[0], "_onParentUpdated"));
    } else {
      EveryLookupListens(ls[1..], l', i - 1);
    }
  }

  class LookupCollection {
    /** The collection being synchronised: every lookup's child collection. */
    ghost const collection: Collection
    const lookups: seq<Lookup>

    ghost predicate Valid()
    {
      forall i :: 0 <= i < |lookups| ==> lookups[i].childCollection == collection
    }

    /** The parent collections the lookups write to. */
    function ParentCollections(): set<Collection>
    {
      set i | 0 <= i < |lookups| :: lookups[i].def.parentCollection
    }

    /** `new LookupCollection(collection, lookupDefinitions)`: one lookup per
        definition, in the order of `OrderDefinitions`, each on `collection`. */
    constructor(collection: Collection, defs: seq<LookupDefinition>)
      ensures Valid() && this.collection == collection
      ensures |lookups| == |OrderDefinitions(defs)| == |defs|
      ensures forall i :: 0 <= i < |lookups| ==> lookups[i].def == OrderDefinitions(defs)[i]
    {
      var ordered := OrderDefinitions(defs);
      OrderDefinitionsPermutation(defs);
      assert |ordered| == |multiset(ordered)| == |multiset(defs)| == |defs|;
      var ls: seq<Lookup> := [];
      var i := 0;
      while i < |ordered|
        invariant 0 <= i <= |ordered| && |ls| == i
        invariant forall j :: 0 <= j < i ==> ls[j].def == ordered[j] && ls[j].childCollection == collection
      {
        var l := new Lookup(ordered[i], collection);
        ls := ls + [l];
        i := i + 1;
      }
      this.collection := collection;
      lookups := ls;
    }

    /** `onChildSynced(child)`. */
    method OnChildSynced(child: Record) returns (r: Record)
      modifies ParentCollections()
      ensures (r, StateOf(ParentCollections())) == SyncFold(lookups, child, old(StateOf(ParentCollections())))
    {
      var ps := ParentCollections();
      ghost var st0 := StateOf(ps);
      r := child;
      var i := 0;
      while i < |lookups|
        invariant 0 <= i <= |lookups|
        invariant SyncFold(lookups[i..], r, StateOf(ps)) == SyncFold(lookups, child, st0)
      {
        var l := lookups[i];
        var pc := l.def.parentCollection;
        assert pc in ps;
        ghost var rec := r;
        ghost var before := StateOf(ps);
        assert before[pc] == pc.docs;
        SyncFoldStep(lookups, i, r, before);
        r := l.OnChildSynced(r);
        StateChangedAt(before, StateOf(ps), pc);
        assert (r, StateOf(ps)) == (l.SyncedRecord(rec, before[pc]), before[pc := l.ParentDocsAfterSync(rec, before[pc])]);
        i := i + 1;
      }
    }

    /** `onChildRemoved(child)`: every lookup, with the same record. */
    method OnChildRemoved(child: Record)
      modifies ParentCollections()
      ensures StateOf(ParentCollections()) == RemoveFold(lookups, child, old(StateOf(ParentCollections())))
    {
      var ps := ParentCollections();
      ghost var st0 := StateOf(ps);
      var i := 0;
      while i < |lookups|
        invariant 0 <= i <= |lookups|
        invariant RemoveFold(lookups[i..], child, StateOf(ps)) == RemoveFold(lookups, child, st0)
      {
        var l := lookups[i];
        var pc := l.def.parentCollection;
        assert pc in ps;
        ghost var before := StateOf(ps);
        assert before[pc] == pc.docs;
        RemoveFoldStep(lookups, i, child, before);
        l.OnChildRemoved(child);
        StateChangedAt(before, StateOf(ps), pc);
        i := i + 1;
      }
    }

    /** `init(sfSync)`: every lookup registers, in order. */
    method Init(bus: SyncEvents)
      requires Valid() && collection.Valid()
      modifies bus, collection
      ensures collection.Valid()
      ensures bus.listeners == RegisteredListeners(lookups, old(bus.listeners))
      ensures bus.deliveries == old(bus.deliveries) && bus.notices == old(bus.notices)
      ensures collection.docs == old(collection.docs)
      ensures old(collection.hooks) <= collection.hooks
      ensures collection.hooks == old(collection.hooks) + LookupHooks(lookups, old(collection.nextSerial))
      ensures collection.nextSerial == old(collection.nextSerial) + LookupHookCount(lookups)
    {
      var i := 0;
      while i < |lookups|
        invariant 0 <= i <= |lookups|
        invariant collection.Valid()
        invariant RegisteredListeners(lookups[i..], bus.listeners) == RegisteredListeners(lookups, old(bus.listeners))
        invariant bus.deliveries == old(bus.deliveries) && bus.notices == old(bus.notices)
        invariant collection.docs == old(collection.docs)
        invariant collection.hooks + LookupHooks(lookups[i..], collection.nextSerial)
                  == old(collection.hooks) + LookupHooks(lookups, old(collection.nextSerial))
        invariant collection.nextSerial + LookupHookCount(lookups[i..]) == old(collection.nextSerial) + LookupHookCount(lookups)
      {
        ghost var listeners0, hooks0, serial0 := bus.listeners, collection.hooks, collection.nextSerial;
        RegisteredListenersAdvance(lookups, i, listeners0);
        LookupHooksAdvance(lookups, i, hooks0, serial0);
        assert lookups[i].childCollection == collection;
        lookups[i].RegisterEvents(bus);
        assert bus.listeners == lookups[i].ListenersAfterRegister(listeners0);
        assert collection.hooks == hooks0 + lookups[i].EventHooks(serial0);
        assert collection.nextSerial == serial0 + lookups[i].EventHookCount();
        i := i + 1;
      }
    }

    /** `deinit(sfSync)`: every lookup deregisters, which removes nothing. */
    method Deinit(bus: SyncEvents)
      ensures bus.listeners == old(bus.listeners)
      ensures forall i :: 0 <= i < |lookups| ==> lookups[i].childCollection.hooks == old(lookups[i].childCollection.hooks)
    {
      var i := 0;
      while i < |lookups|
        invariant 0 <= i <= |lookups|
      {
        lookups[i].Deregister(bus);
        i := i + 1;
      }
    }
  }
}
