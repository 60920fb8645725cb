/** The incremental synchronisation of one remote resource into one local
    collection: the query built from the watermark, the record and deletion
    ingestion shared with the streaming subscription, and the run guard. */
module CollectionSync {
  import opened Values
  import opened Utility
  import opened Store
  import opened Events
  import Connection
  import Hooks
  import opened Lookup
  import opened LookupCollection

  const Minute: int := 60000
  const Day: int := 24 * 60 * 60 * 1000
  const TenDays: int := 10 * Day

  /** A query condition: SOQL text or an object of field conditions. */
  datatype Criteria = CritString(text: string) | CritObject(fields: Record)

  /** The `condition` option: a fixed condition or a function computing one. */
  datatype Condition = Fixed(criteria: Criteria) | Computed(compute: () -> Criteria)

  /** `'*'` or an explicit field list. */
  datatype QueryFields = AllFields | FieldList(names: seq<string>)

  /** One `sobject(resource).find(where, fields).sort({timeStampField: 1})` issued. */
  datatype Query = Query(resource: string, where: Criteria, fields: QueryFields, sortField: string)

  /** One `sobject(resource).deleted(start, end)` issued, in milliseconds. */
  datatype DeletedRequest = DeletedRequest(resource: string, start: int, end: int)

  /** What `transform(record)` returns: exactly `false`, another falsy
      value, or a record. */
  datatype TransformReturn = ReturnedFalse | ReturnedFalsy | ReturnedRecord(record: Record)

  /** A transform may change the record it is given as well as return a value. */
  datatype TransformResult = TransformResult(mutated: Record, returned: TransformReturn)

  datatype SyncOptions = SyncOptions(
    interval: int,
    topic: Option<string>,
    transform: Option<Record -> TransformResult>,
    onRemoved: Option<Value -> Value>,
    useCollectionHooks: bool,
    lookupDefinitions: Option<seq<LookupDefinition>>,
    timeStampField: string,
    syncDeletedItems: bool,
    outboundHooks: Hooks.OutboundHooks)

  /** The values of a status object at one moment. */
  datatype Counters = Counters(updated: int, inserted: int, deleted: int, lastRecordSyncDate: Value)

  /** One invocation of a run's callback: `callback(err)` or `callback(err, status)`. */
  datatype CallbackCall = CallbackCall(err: Option<Error>, status: Option<Counters>)

  /** A streaming event: its `event.type` and its `sobject`. */
  datatype StreamMessage = StreamMessage(eventType: string, sobject: Record)

  /** The counters a run or a streaming message updates in place. */
  class SyncStatus {
    var updated: int
    var inserted: int
    var deleted: int
    var lastRecordSyncDate: Value

    constructor(lastRecordSyncDate: Value)
      ensures Snapshot() == Counters(0, 0, 0, lastRecordSyncDate)
    {
      updated, inserted, deleted := 0, 0, 0;
      this.lastRecordSyncDate := lastRecordSyncDate;
    }

    function Snapshot(): Counters
      reads this
    {
      Counters(updated, inserted, deleted, lastRecordSyncDate)
    }
  }

  /** The state a run's query handlers close over. */
  datatype RunContext = RunContext(syncStart: int, status: SyncStatus, hasCallback: bool)

  // ---------------------------------------------------------------------
  // Query construction

  /** Some document holds a number under `timeStampField`. */
  predicate HasNumericStamp(docs: Docs, timeStampField: string)
  {
    exists k :: k in docs && Get(docs[k], timeStampField).Num?
  }

  /** Some document holds `null` under `timeStampField`. */
  predicate HasNullStamp(docs: Docs, timeStampField: string)
  {
    exists k :: k in docs && Get(docs[k], timeStampField) == Null
  }

  /** `m` is the instant `new Date(lastRec[F])` gives for the document the
      query returns: the largest numeric timestamp; epoch 0 when no document
      holds a number but one holds `null`, which sorts below every number;
      `None` when no document holds either. */
  predicate IsLatest(docs: Docs, timeStampField: string, m: Option<int>)
  {
    && (m.None? <==> !HasNumericStamp(docs, timeStampField) && !HasNullStamp(docs, timeStampField))
    && (HasNumericStamp(docs, timeStampField) ==>
          && m.Some?
          && (exists k :: k in docs && Get(docs[k], timeStampField) == Num(m.value))
          && (forall k :: k in docs && Get(docs[k], timeStampField).Num? ==> Get(docs[k], timeStampField).n <= m.value))
    && (!HasNumericStamp(docs, timeStampField) && HasNullStamp(docs, timeStampField) ==> m == Some(0))
  }

  /** `findOne({F: {$exists: true}}, {sort: {F: -1}})`, read for its timestamp. */
  method LatestTimestamp(docs: Docs, timeStampField: string) returns (m: Option<int>)
    ensures IsLatest(docs, timeStampField, m)
  {
    var best: Option<int> := None;
    var sawNull := false;
    var remaining := docs.Keys;
    while remaining != {}
      invariant remaining <= docs.Keys
      invariant best.None? <==> forall k :: k in docs && k !in remaining ==> !Get(docs[k], timeStampField).Num?
      invariant best.Some? ==> exists k :: k in docs && k !in remaining && Get(docs[k], timeStampField) == Num(best.value)
      invariant best.Some? ==> forall k :: k in docs && k !in remaining && Get(docs[k], timeStampField).Num? ==>
                  Get(docs[k], timeStampField).n <= best.value
      invariant sawNull <==> exists k :: k in docs && k !in remaining && Get(docs[k], timeStampField) == Null
      decreases remaining
    {
      var k :| k in remaining;
      var t := Get(docs[k], timeStampField);
      if t.Num? && (best.None? || t.n > best.value) {
        best := Some(t.n);
      }
      if t == Null {
        sawNull := true;
      }
      remaining := remaining - {k};
    }
    m := if best.Some? then best else if sawNull then Some(0) else None;
  }

  /** The condition after the timestamp clause for `watermark` is added. */
  function WhereFor(base: Criteria, timeStampField: string, watermark: Option<int>, literal: int -> string): (w: Criteria)
    ensures watermark.None? ==> w == base
    ensures watermark.Some? && base.CritString? && base.text == "" ==>
      w == CritString(timeStampField + " > " + literal(watermark.value))
    ensures watermark.Some? && base.CritString? && base.text != "" ==>
      w == CritString("(" + base.text + ") and " + timeStampField + " > " + literal(watermark.value))
    ensures watermark.Some? && base.CritObject? ==>
      && w.CritObject? && w.fields.Keys == base.fields.Keys + {timeStampField}
      && w.fields[timeStampField] == Obj(map["$gt" := Str(literal(watermark.value))])
      && forall f :: f in base.fields && f != timeStampField ==> w.fields[f] == base.fields[f]
  {
    if watermark.None? then base
    else
      var lit := literal(watermark.value);
      match base
      case CritString(text) =>
        if text == "" then CritString(timeStampField + " > " + lit)
        else CritString("(" + text + ") and " + timeStampField + " > " + lit)
      case CritObject(fields) =>
        CritObject(fields[timeStampField := Obj(map["$gt" := Str(lit)])])
  }

  /** The field list with the timestamp field and `Id` appended when missing. */
  function WithRequiredFields(fields: seq<string>, timeStampField: string): (r: seq<string>)
    ensures |fields| <= |r| <= |fields| + 2 && r[..|fields|] == fields
    ensures forall x :: x in r <==> x in fields || x == timeStampField || x == "Id"
    ensures timeStampField in fields && "Id" in fields ==> r == fields
  {
    var withTs := if timeStampField in fields then fields else fields + [timeStampField];
    if "Id" in withTs then withTs else withTs + ["Id"]
  }

  predicate NoDuplicates(s: seq<string>)
  {
    forall i, j :: 0 <= i < j < |s| ==> s[i] != s[j]
  }

  /** Appending never duplicates a name. */
  lemma WithRequiredFieldsNoDuplicates(fields: seq<string>, timeStampField: string)
    requires NoDuplicates(fields)
    ensures NoDuplicates(WithRequiredFields(fields, timeStampField))
  {
    var withTs := if timeStampField in fields then fields else fields + [timeStampField];
    assert NoDuplicates(withTs);
  }

  /** The `deleted` window: it ends at the run's start; it starts at the
      watermark when that is at most ten days old, otherwise five days
      before the day the run started; and it is at least a minute long. */
  function DeletionWindow(lastSync: Option<int>, syncStart: int): (w: (int, int))
    ensures w.1 == syncStart
    ensures w.0 <= w.1 - Minute
    ensures syncStart - TenDays <= w.0
    ensures lastSync.Some? && syncStart - TenDays <= lastSync.value <= syncStart - Minute ==> w.0 == lastSync.value
    ensures lastSync.Some? && lastSync.value > syncStart - Minute ==> w.0 == syncStart - Minute
    ensures (lastSync.None? || lastSync.value < syncStart - TenDays) ==>
      w.0 == (syncStart / Day) * Day - 5 * Day && syncStart - 6 * Day < w.0 <= syncStart - 5 * Day
  {
    var start :=
      if lastSync.None? || lastSync.value < syncStart - TenDays then (syncStart / Day) * Day - 5 * Day
      else lastSync.value;
    (if start > syncStart - Minute then syncStart - Minute else start, syncStart)
  }

  // ---------------------------------------------------------------------
  // Ingestion

  /** What one ingestion step leaves: the store, the counters, and the
      notifications made, in order. */
  datatype Effect = Effect(docs: Docs, counters: Counters, notices: seq<Notice>)

  /** Where a prepared record goes. */
  datatype Ingest = Upserted(record: Record) | Vetoed(record: Record)

  /** The transform step: only a result of exactly `false` vetoes the
      record, a returned record replaces it, any other falsy result keeps
      the record as the transform left it. */
  function IngestDecision(transform: Option<Record -> TransformResult>, rec: Record): (d: Ingest)
    ensures transform.None? ==> d == Upserted(rec)
    ensures transform.Some? ==> (d.Vetoed? <==> transform.value(rec).returned == ReturnedFalse)
    ensures transform.Some? && transform.value(rec).returned.ReturnedRecord? ==>
      d == Upserted(transform.value(rec).returned.record)
    ensures transform.Some? && !transform.value(rec).returned.ReturnedRecord? ==>
      d.record == transform.value(rec).mutated
  {
    if transform.None? then Upserted(rec)
    else
      var t := transform.value(rec);
      match t.returned
      case ReturnedFalse => Vetoed(t.mutated)
      case ReturnedFalsy => Upserted(t.mutated)
      case ReturnedRecord(r) => Upserted(r)
  }

  /** `r.id || r.Id`. */
  function DeletedId(r: Record): Value
  {
    if Truthy(Get(r, "id")) then Get(r, "id") else IdOf(r)
  }

  /** The records `onRemoved` does not veto: only a result of exactly `false` keeps one. */
  function Surviving(onRemoved: Option<Value -> Value>, records: seq<Record>): (r: seq<Record>)
    ensures |r| <= |records|
    ensures onRemoved.None? ==> r == records
    ensures forall x :: x in r <==> x in records && (onRemoved.None? || onRemoved.value(DeletedId(x)) != Bool(false))
    decreases |records|
  {
    if records == [] then []
    else
      var rest := Surviving(onRemoved, records[1..]);
      assert records == [records[0]] + records[1..];
      if onRemoved.Some? && onRemoved.value(DeletedId(records[0])) == Bool(false) then rest
      else [records[0]] + rest
  }

  /** The records whose deletion `onRemoved` does not veto. */
  function NotVetoed(onRemoved: Option<Value -> Value>): Record -> bool
  {
    x => onRemoved.None? || onRemoved.value(DeletedId(x)) != Bool(false)
  }

  /** The positions of `records` whose deletion goes ahead, in order:
      Surviving is the order-preserving filter of the records `onRemoved` does not veto. */
  ghost function SurvivingPositions(onRemoved: Option<Value -> Value>, records: seq<Record>): (idx: seq<nat>)
    ensures FilteredAt(Surviving(onRemoved, records), records, idx, NotVetoed(onRemoved))
    decreases |records|
  {
    if records == [] then []
    else
      var rest := SurvivingPositions(onRemoved, records[1..]);
      SurvivingStep(onRemoved, records, rest);
      if NotVetoed(onRemoved)(records[0]) then [0] + ShiftedPositions(rest) else ShiftedPositions(rest)
  }

  /** One step of SurvivingPositions: the first record, then the rest's positions one place along. */
  lemma SurvivingStep(onRemoved: Option<Value -> Value>, records: seq<Record>, rest: seq<nat>)
    requires records != []
    requires FilteredAt(Surviving(onRemoved, records[1..]), records[1..], rest, NotVetoed(onRemoved))
    ensures FilteredAt(Surviving(onRemoved, records), records,
                       if NotVetoed(onRemoved)(records[0]) then [0] + ShiftedPositions(rest) else ShiftedPositions(rest),
                       NotVetoed(onRemoved))
  {
    var tail := records[1..];
    assert records == [records[0]] + tail;
    var vetoed := onRemoved.Some? && onRemoved.value(DeletedId(records[0])) == Bool(false);
    assert NotVetoed(onRemoved)(records[0]) == !vetoed;
    assert Surviving(onRemoved, records) == if vetoed then Surviving(onRemoved, tail) else [records[0]] + Surviving(onRemoved, tail);
    FilteredAtCons(records[0], tail, Surviving(onRemoved, tail), rest, NotVetoed(onRemoved));
  }

  function DeletedIds(records: seq<Record>): (ids: seq<Value>)
    ensures |ids| == |records| && forall i :: 0 <= i < |records| ==> ids[i] == DeletedId(records[i])
  {
    seq(|records|, i requires 0 <= i < |records| => DeletedId(records[i]))
  }

  /** One `removed` notification per id, in order, each with a record holding only `Id`. */
  function RemovedNotices(resource: string, ids: seq<Value>): (ns: seq<Notice>)
    ensures |ns| == |ids| && forall i :: 0 <= i < |ids| ==> ns[i] == Notice("removed", resource, map["Id" := ids[i]])
  {
    seq(|ids|, i requires 0 <= i < |ids| => Notice("removed", resource, map["Id" := ids[i]]))
  }

  /** The watermark a completed run leaves: the timestamp of the last record
      it stored when that is a non-zero number, otherwise the run's start. */
  function WatermarkAfter(lastRecordSyncDate: Value, syncStart: int): (w: int)
    ensures w == syncStart || (lastRecordSyncDate.Num? && w == lastRecordSyncDate.n)
    ensures lastRecordSyncDate.Num? && lastRecordSyncDate.n != 0 ==> w == lastRecordSyncDate.n
    ensures lastRecordSyncDate in {Undefined, Null, Num(0)} ==> w == syncStart
  {
    if Truthy(lastRecordSyncDate) && lastRecordSyncDate.Num? then lastRecordSyncDate.n else syncStart
  }

  class CollectionSync {
    /** The singleton's emitter, reached through `syncforce._notifyReceived`. */
    const syncEvents: SyncEvents
    const collection: Collection
    const resource: string
    const options: SyncOptions
    /** `jsforce.Date.toDateTimeLiteral` applied to an instant. */
    const dateTimeLiteral: int -> string
    /** The connection built from the login options when the sync was made. */
    const session: Connection.ConnectionOptions
    const collectionHooks: Option<Hooks.Hooks>
    /** Made after the sync itself, which it refers back to. */
    var subscription: Option<Subscription>
    const lookups: Option<LookupCollection>

    var condition: Condition
    /** `options.fields`, which `createQueryFields` extends in place. */
    var fields: Option<seq<string>>
    var intervalHandle: bool
    /** The number of installed intervals that were not cleared. */
    var activeIntervals: nat
    var running: bool
    var lastSync: Option<int>
    /** The run whose query is in flight. */
    var current: Option<RunContext>
    var queries: seq<Query>
    var deletedRequests: seq<DeletedRequest>
    var callbacks: seq<CallbackCall>

    ghost predicate Valid()
      reads this, collection
    {
      && collection.Valid()
      && (collectionHooks.Some? ==> collectionHooks.value.collection == collection)
      && (lookups.Some? ==> lookups.value.Valid() && lookups.value.collection == collection)
      && (subscription.Some? ==> subscription.value.collectionSync == this)
      && activeIntervals == (if intervalHandle then 1 else 0)
    }

    /** The parent collections the lookups write to. */
    function Parents(): set<Collection>
    {
      if lookups.Some? then lookups.value.ParentCollections() else {}
    }

    /** The record after the lookups, and the parent documents they leave. */
    function LookupsApplied(rec: Record, st: ParentState): (r: (Record, ParentState))
      requires Parents() <= st.Keys
      ensures r.1.Keys == st.Keys
    {
      if lookups.Some? then SyncFold(lookups.value.lookups, rec, st) else (rec, st)
    }

    /** `new CollectionSync(syncforce, collection, resource, condition,
        options)`, given the connection options `getConnection` returned.
        The lookups are built from the two-argument constructor call. */
    constructor(syncEvents: SyncEvents, connection: Connection.Connection, session: Connection.ConnectionOptions,
                collection: Collection, resource: string, condition: Condition, options: SyncOptions,
                fields: Option<seq<string>>, dateTimeLiteral: int -> string)
      requires collection.Valid()
      ensures Valid()
      ensures this.syncEvents == syncEvents && this.collection == collection && this.resource == resource
      ensures this.options == options && this.condition == condition && this.fields == fields
      ensures this.session == session && this.dateTimeLiteral == dateTimeLiteral
      ensures !intervalHandle && activeIntervals == 0 && !running && lastSync.None? && current.None?
      ensures queries == [] && deletedRequests == [] && callbacks == []
      ensures collectionHooks.Some? <==> options.useCollectionHooks
      ensures collectionHooks.Some? ==>
        (fresh(collectionHooks.value) && collectionHooks.value.collectionHooks == []
         && collectionHooks.value.connection == connection && collectionHooks.value.resource == resource
         && collectionHooks.value.outboundHooks == options.outboundHooks)
      ensures fresh(Components())
      ensures subscription.Some? <==> Named(options.topic)
      ensures subscription.Some? ==>
        (fresh(subscription.value) && subscription.value.topic == options.topic.value
         && subscription.value.subscription.None?)
      ensures lookups.Some? <==> options.lookupDefinitions.Some?
      ensures lookups.Some? ==>
        var ordered := OrderDefinitions(options.lookupDefinitions.value);
        |lookups.value.lookups| == |ordered| && forall i :: 0 <= i < |ordered| ==> lookups.value.lookups[i].def == ordered[i]
    {
      this.syncEvents := syncEvents;
      this.collection := collection;
      this.resource := resource;
      this.options := options;
      this.dateTimeLiteral := dateTimeLiteral;
      this.session := session;
      this.condition := condition;
      this.fields := fields;
      intervalHandle := false;
      activeIntervals := 0;
      running := false;
      lastSync := None;
      current := None;
      queries, deletedRequests, callbacks := [], [], [];
      if options.useCollectionHooks {
        var h := new Hooks.Hooks(connection, collection, resource, options.outboundHooks);
        collectionHooks := Some(h);
      } else {
        collectionHooks := None;
      }
      if options.lookupDefinitions.Some? {
        var lc := new LookupCollection(collection, options.lookupDefinitions.value);
        lookups := Some(lc);
      } else {
        lookups := None;
      }
      subscription := None;
      new;
      if Named(options.topic) {
        var s := new Subscription(this, options.topic.value);
        subscription := Some(s);
      }
    }

    /** The objects `start` and `stop` change besides the sync and its collection. */
    function Components(): set<object>
      reads this
    {
      (if subscription.Some? then {subscription.value} else {})
      + (if collectionHooks.Some? then {collectionHooks.value} else {})
    }

    /** The hooks the first `start()` installs when the collection's next
        hook serial is `n`: the four kept by the collection hooks, then
        those of the lookups, whose serials follow. */
    function SetupHooks(n: nat): set<Registration>
      reads this, if collectionHooks.Some? then {collectionHooks.value} else {}
    {
      (if collectionHooks.Some? then set r | r in collectionHooks.value.collectionHooks else {})
      + (if lookups.Some? then LookupHooks(lookups.value.lookups, n + if collectionHooks.Some? then 4 else 0) else {})
    }

    /** `start()`: the first call installs the interval and sets up the
        subscription, the collection hooks and the lookups; every call then
        runs. The subscription is set up by the intended `init`
        (`Subscription.Init`), not by the one as written, which throws. */
    method Start(now: int)
      requires Valid()
      modifies this, collection, syncEvents, Components()
      ensures Valid()
      ensures intervalHandle && subscription == old(subscription)
      ensures old(intervalHandle) ==>
        (unchanged(Components()) && collection.hooks == old(collection.hooks)
         && syncEvents.listeners == old(syncEvents.listeners))
      ensures !old(intervalHandle) && subscription.Some? ==>
        subscription.value.subscription.Some? && subscription.value.cancelled == old(subscription.value.cancelled)
      ensures !old(intervalHandle) && collectionHooks.Some? ==>
        && |collectionHooks.value.collectionHooks| == 4
        && (forall r :: r in collectionHooks.value.collectionHooks ==> r in collection.hooks && r !in old(collection.hooks))
      ensures !old(intervalHandle) && collectionHooks.None? && lookups.None? ==> collection.hooks == old(collection.hooks)
      ensures !old(intervalHandle) && lookups.Some? && collectionHooks.None? ==>
        collection.hooks >= old(collection.hooks)
      ensures !old(intervalHandle) ==> collection.hooks == old(collection.hooks) + SetupHooks(old(collection.nextSerial))
      ensures !old(intervalHandle) && lookups.Some? ==>
        syncEvents.listeners == RegisteredListeners(lookups.value.lookups, old(syncEvents.listeners))
      ensures !old(intervalHandle) && lookups.None? ==> syncEvents.listeners == old(syncEvents.listeners)
      ensures RunEffect(now, false)
      ensures !old(running) ==> current.value.status.Snapshot() == Counters(0, 0, 0, Null)
      ensures collection.docs == old(collection.docs)
      ensures syncEvents.notices == old(syncEvents.notices) && syncEvents.deliveries == old(syncEvents.deliveries)
    {
      if !intervalHandle {
        InstallInterval();
      }
      Run(now, false);
    }

    /** The first `start()`'s setup: the interval, the subscription (by the
        intended `Subscription.Init`), the collection hooks and the lookups'
        listeners and hooks. */
    method InstallInterval()
      requires Valid() && !intervalHandle
      modifies this, collection, syncEvents, Components()
      ensures Valid()
      ensures intervalHandle && subscription == old(subscription)
      ensures subscription.Some? ==>
        subscription.value.subscription.Some? && subscription.value.cancelled == old(subscription.value.cancelled)
      ensures collectionHooks.Some? ==>
        && |collectionHooks.value.collectionHooks| == 4
        && (forall r :: r in collectionHooks.value.collectionHooks ==> r in collection.hooks && r !in old(collection.hooks))
      ensures collectionHooks.None? && lookups.None? ==> collection.hooks == old(collection.hooks)
      ensures lookups.Some? && collectionHooks.None? ==> collection.hooks >= old(collection.hooks)
      ensures collection.hooks == old(collection.hooks) + SetupHooks(old(collection.nextSerial))
      ensures lookups.Some? ==> syncEvents.listeners == RegisteredListeners(lookups.value.lookups, old(syncEvents.listeners))
      ensures lookups.None? ==> syncEvents.listeners == old(syncEvents.listeners)
      ensures && running == old(running) && lastSync == old(lastSync) && condition == old(condition)
              && fields == old(fields) && current == old(current) && queries == old(queries)
              && deletedRequests == old(deletedRequests) && callbacks == old(callbacks)
      ensures collection.docs == old(collection.docs)
      ensures syncEvents.notices == old(syncEvents.notices) && syncEvents.deliveries == old(syncEvents.deliveries)
    {
      intervalHandle := true;
      activeIntervals := activeIntervals + 1;
      if subscription.Some? {
        subscription.value.Init();
      }
      InstallHooks();
    }

    /** The hooks part of the first `start()`: the collection hooks' `init`,
        then the lookups' `init`. */
    method InstallHooks()
      requires Valid()
      modifies collection, syncEvents, if collectionHooks.Some? then {collectionHooks.value} else {}
      ensures collection.Valid()
      ensures collectionHooks.Some? ==>
        && |collectionHooks.value.collectionHooks| == 4
        && (forall r :: r in collectionHooks.value.collectionHooks ==> r in collection.hooks && r !in old(collection.hooks))
      ensures collection.hooks == old(collection.hooks) + SetupHooks(old(collection.nextSerial))
      ensures lookups.Some? ==> syncEvents.listeners == RegisteredListeners(lookups.value.lookups, old(syncEvents.listeners))
      ensures lookups.None? ==> syncEvents.listeners == old(syncEvents.listeners)
      ensures collection.docs == old(collection.docs)
      ensures syncEvents.notices == old(syncEvents.notices) && syncEvents.deliveries == old(syncEvents.deliveries)
    {
      ghost var hooks0, serial0 := collection.hooks, collection.nextSerial;
      if collectionHooks.Some? {
        collectionHooks.value.Init();
      }
      ghost var hooks1, serial1 := collection.hooks, collection.nextSerial;
      if lookups.Some? {
        lookups.value.Init(syncEvents);
      }
      assert collection.hooks == hooks1 + (if lookups.Some? then LookupHooks(lookups.value.lookups, serial1) else {});
    }

    /** The collection the collection hooks are installed on. */
    function HookedCollections(): set<Collection>
    {
      if collectionHooks.Some? then {collectionHooks.value.collection} else {}
    }

    /** Everything `stop` may change. */
    function StopFrame(): set<object>
      reads this
    {
      {this} + Components() + HookedCollections()
    }

    /** `stop()`: clears the interval and undoes what `start` set up; a
        sync that is not started is left as it is. */
    method Stop()
      modifies StopFrame()
      ensures !intervalHandle && subscription == old(subscription)
      ensures activeIntervals == if old(intervalHandle) && old(activeIntervals) > 0 then old(activeIntervals) - 1 else old(activeIntervals)
      ensures !old(intervalHandle) ==> unchanged(Components()) && unchanged(HookedCollections())
      ensures old(intervalHandle) && subscription.Some? ==>
        subscription.value.subscription.None? && subscription.value.subscribed == old(subscription.value.subscribed)
      ensures old(intervalHandle) && collectionHooks.Some? ==>
        var c := collectionHooks.value.collection;
        c.hooks == old(c.hooks) - set r | r in collectionHooks.value.collectionHooks
      ensures collectionHooks.Some? ==> collectionHooks.value.collectionHooks == old(collectionHooks.value.collectionHooks)
      ensures forall c :: c in HookedCollections() ==> c.docs == old(c.docs) && c.nextSerial == old(c.nextSerial)
      ensures running == old(running) && lastSync == old(lastSync) && current == old(current)
      ensures old(Valid()) ==> Valid()
    {
      if intervalHandle {
        intervalHandle := false;
        if activeIntervals > 0 {
          activeIntervals := activeIntervals - 1;
        }
        if subscription.Some? {
          subscription.value.Deinit();
        }
        if collectionHooks.Some? {
          collectionHooks.value.Deinit();
        }
        if lookups.Some? {
          lookups.value.Deinit(syncEvents);
        }
      }
    }

    /** `createQueryWhere()`: infers a missing watermark from the local
        documents, then adds the timestamp clause. An object condition given
        as such is extended in place. */
    method CreateQueryWhere() returns (where: Criteria)
      modifies this
      ensures old(lastSync).Some? ==> lastSync == old(lastSync)
      ensures old(lastSync).None? ==> IsLatest(collection.docs, options.timeStampField, lastSync)
      ensures var base := if old(condition).Fixed? then old(condition).criteria else old(condition).compute();
        where == WhereFor(base, options.timeStampField, lastSync, dateTimeLiteral)
      ensures condition == if old(condition).Fixed? && old(condition).criteria.CritObject? then Fixed(where) else old(condition)
      ensures fields == old(fields) && running == old(running) && current == old(current)
      ensures intervalHandle == old(intervalHandle) && activeIntervals == old(activeIntervals)
      ensures queries == old(queries) && deletedRequests == old(deletedRequests) && callbacks == old(callbacks)
      ensures subscription == old(subscription)
    {
      var base := if condition.Fixed? then condition.criteria else condition.compute();
      if lastSync.None? {
        lastSync := LatestTimestamp(collection.docs, options.timeStampField);
      }
      where := WhereFor(base, options.timeStampField, lastSync, dateTimeLiteral);
      if condition.Fixed? && condition.criteria.CritObject? {
        condition := Fixed(where);
      }
    }

    /** `createQueryFields()`: `'*'` without a field list; otherwise the list,
        extended in place with the timestamp field and `Id`. */
    method CreateQueryFields() returns (r: QueryFields)
      modifies this
      ensures old(fields).None? ==> r == AllFields && fields == old(fields)
      ensures old(fields).Some? ==>
        fields == Some(WithRequiredFields(old(fields).value, options.timeStampField)) && r == FieldList(fields.value)
      ensures condition == old(condition) && lastSync == old(lastSync) && running == old(running) && current == old(current)
      ensures intervalHandle == old(intervalHandle) && activeIntervals == old(activeIntervals)
      ensures queries == old(queries) && deletedRequests == old(deletedRequests) && callbacks == old(callbacks)
      ensures subscription == old(subscription)
    {
      if fields.None? {
        return AllFields;
      }
      fields := Some(WithRequiredFields(fields.value, options.timeStampField));
      r := FieldList(fields.value);
    }

    /** How a run changes the sync: nothing while one is in flight;
        otherwise the guard is set, a fresh zeroed status is made, and the
        query is issued. */
    twostate predicate RunEffect(syncStart: int, hasCallback: bool)
      reads this, collection
    {
      if old(running) then
        && running && lastSync == old(lastSync) && condition == old(condition) && fields == old(fields)
        && current == old(current) && queries == old(queries)
        && deletedRequests == old(deletedRequests) && callbacks == old(callbacks)
      else
        && running
        && (old(lastSync).Some? ==> lastSync == old(lastSync))
        && (old(lastSync).None? ==> IsLatest(old(collection.docs), options.timeStampField, lastSync))
        && (var base := if old(condition).Fixed? then old(condition).criteria else old(condition).compute();
            var where := WhereFor(base, options.timeStampField, lastSync, dateTimeLiteral);
           && condition == (if old(condition).Fixed? && old(condition).criteria.CritObject? then Fixed(where) else old(condition))
           && (old(fields).None? ==> fields == old(fields))
           && (old(fields).Some? ==> fields == Some(WithRequiredFields(old(fields).value, options.timeStampField)))
           && queries == old(queries) + [Query(resource, where, if fields.None? then AllFields else FieldList(fields.value),
                                               options.timeStampField)])
        && current.Some? && fresh(current.value.status)
        && current.value.syncStart == syncStart && current.value.hasCallback == hasCallback
        && deletedRequests == old(deletedRequests) && callbacks == old(callbacks)
    }

    /** `run(callback)` up to issuing the query; `syncStart` is the clock's
        reading, `hasCallback` whether a callback was passed. */
    method Run(syncStart: int, hasCallback: bool)
      modifies this
      ensures RunEffect(syncStart, hasCallback)
      ensures !old(running) ==> current.value.status.Snapshot() == Counters(0, 0, 0, Null)
      ensures intervalHandle == old(intervalHandle) && activeIntervals == old(activeIntervals)
      ensures subscription == old(subscription)
    {
      if running {
        return;
      }
      var status := new SyncStatus(Null);
      running := true;
      var where := CreateQueryWhere();
      var fs := CreateQueryFields();
      queries := queries + [Query(resource, where, fs, options.timeStampField)];
      current := Some(RunContext(syncStart, status, hasCallback));
    }

    /** The query's `record` handler. */
    method OnRecord(record: Record)
      requires current.Some?
      modifies collection, syncEvents, current.value.status, Parents()
      ensures RecordProcessed(record, old(current.value.status.Snapshot()), current.value.status)
    {
      ProcessRecord(record, current.value.status);
    }

    /** The query's `end` handler, with `deleted` the outcome of the
        `deleted` call it makes when deletions are synchronised. Without
        that, the handler does nothing: the guard stays set and the
        callback is never called. */
    method OnQueryEnd(deleted: Result<seq<Record>>)
      requires current.Some?
      modifies this, collection, syncEvents, current.value.status
      ensures current.None?
      ensures !options.syncDeletedItems ==>
        && running == old(running) && lastSync == old(lastSync) && callbacks == old(callbacks)
        && deletedRequests == old(deletedRequests)
        && unchanged(collection, syncEvents, old(current).value.status)
      ensures options.syncDeletedItems ==> RunFinished(old(current).value, deleted)
      ensures condition == old(condition) && fields == old(fields) && queries == old(queries)
      ensures intervalHandle == old(intervalHandle) && activeIntervals == old(activeIntervals)
      ensures collection.hooks == old(collection.hooks) && collection.nextSerial == old(collection.nextSerial)
    {
      var ctx := current.value;
      current := None;
      if options.syncDeletedItems {
        FinishRun(ctx, deleted);
      }
    }

    /** How the end of a run with deletions synchronised changes the sync:
        the `deleted` window is requested, the deletions applied, the guard
        cleared, the watermark moved, and the callback called. */
    twostate predicate RunFinished(ctx: RunContext, deleted: Result<seq<Record>>)
      reads this, collection, syncEvents, ctx.status
    {
      var window := DeletionWindow(old(lastSync), ctx.syncStart);
      && deletedRequests == old(deletedRequests) + [DeletedRequest(resource, window.0, window.1)]
      && !running
      && lastSync == Some(WatermarkAfter(ctx.status.lastRecordSyncDate, ctx.syncStart))
      && (deleted.Threw? ==> unchanged(collection, syncEvents, ctx.status))
      && (deleted.Ok? ==> DeletionsApplied(deleted.value, old(collection.docs), old(ctx.status.Snapshot()), ctx.status))
      && callbacks == old(callbacks) +
           if ctx.hasCallback then [CallbackCall(if deleted.Threw? then Some(deleted.error) else None, Some(ctx.status.Snapshot()))]
           else []
    }

    method FinishRun(ctx: RunContext, deleted: Result<seq<Record>>)
      modifies this, collection, syncEvents, ctx.status
      ensures RunFinished(ctx, deleted)
      ensures current == old(current)
      ensures condition == old(condition) && fields == old(fields) && queries == old(queries)
      ensures intervalHandle == old(intervalHandle) && activeIntervals == old(activeIntervals)
      ensures collection.hooks == old(collection.hooks) && collection.nextSerial == old(collection.nextSerial)
    {
      var window := DeletionWindow(lastSync, ctx.syncStart);
      deletedRequests := deletedRequests + [DeletedRequest(resource, window.0, window.1)];
      var err: Option<Error> := None;
      if deleted.Threw? {
        err := Some(deleted.error);
      } else {
        ProcessDeletedRecords(deleted.value, ctx.status);
      }
      Complete(ctx, err);
    }

    /** The last steps of a run: the guard is cleared, the watermark moved,
        and the callback called with the counters. */
    method Complete(ctx: RunContext, err: Option<Error>)
      modifies this
      ensures !running && lastSync == Some(WatermarkAfter(ctx.status.lastRecordSyncDate, ctx.syncStart))
      ensures callbacks == old(callbacks) + if ctx.hasCallback then [CallbackCall(err, Some(ctx.status.Snapshot()))] else []
      ensures current == old(current) && deletedRequests == old(deletedRequests)
      ensures condition == old(condition) && fields == old(fields) && queries == old(queries)
      ensures intervalHandle == old(intervalHandle) && activeIntervals == old(activeIntervals)
    {
      running := false;
      lastSync := Some(WatermarkAfter(ctx.status.lastRecordSyncDate, ctx.syncStart));
      if ctx.hasCallback {
        callbacks := callbacks + [CallbackCall(err, Some(ctx.status.Snapshot()))];
      }
    }

    /** The query's `error` handler: the guard is cleared, the watermark
        kept, and the callback gets the error. */
    method OnQueryError(err: Error)
      requires current.Some?
      modifies this
      ensures !running && lastSync == old(lastSync) && current.None?
      ensures callbacks == old(callbacks) + (if old(current).value.hasCallback then [CallbackCall(Some(err), None)] else [])
      ensures condition == old(condition) && fields == old(fields) && queries == old(queries)
      ensures deletedRequests == old(deletedRequests)
      ensures intervalHandle == old(intervalHandle) && activeIntervals == old(activeIntervals)
    {
      var ctx := current.value;
      current := None;
      running := false;
      if ctx.hasCallback {
        callbacks := callbacks + [CallbackCall(Some(err), None)];
      }
    }

    /** The store, counters and notifications after `processDeletedRecords`. */
    function DeletionEffect(records: seq<Record>, before: Docs, counters: Counters): (e: Effect)
      ensures records == [] ==> e == Effect(before, counters, [])
      ensures records != [] ==>
        var ids := DeletedIds(Surviving(options.onRemoved, records));
        && e.docs.Keys == before.Keys - (set i | i in ids)
        && (forall k :: k in e.docs ==> e.docs[k] == before[k])
        && e.counters.deleted == counters.deleted + (|before| - |e.docs|)
        && e.counters == counters.(deleted := e.counters.deleted)
        && |e.notices| == |ids|
        && forall j :: 0 <= j < |ids| ==> e.notices[j] == Notice("removed", resource, map["Id" := ids[j]])
    {
      if records == [] then Effect(before, counters, [])
      else
        var ids := DeletedIds(Surviving(options.onRemoved, records));
        RemoveDocsCount(before, ids);
        Effect(RemoveDocs(before, ids), counters.(deleted := counters.deleted + RemovedCount(before, ids)),
               RemovedNotices(resource, ids))
    }

    /** What `processDeletedRecords(records, status)` did, from the
        documents `before` and the counters `counters`. */
    twostate predicate DeletionsApplied(records: seq<Record>, before: Docs, counters: Counters, new status: SyncStatus)
      reads collection, syncEvents, status
    {
      var e := DeletionEffect(records, before, counters);
      && collection.docs == e.docs && status.Snapshot() == e.counters && syncEvents.Notified(e.notices)
    }

    /** `processDeletedRecords(records, status)`: the ids `onRemoved` does
        not veto are removed, counted, and announced one by one. */
    method ProcessDeletedRecords(records: seq<Record>, status: SyncStatus)
      modifies collection, syncEvents, status
      ensures DeletionsApplied(records, old(collection.docs), old(status.Snapshot()), status)
      ensures collection.hooks == old(collection.hooks) && collection.nextSerial == old(collection.nextSerial)
    {
      if |records| == 0 {
        return;
      }
      var toDelete := Surviving(options.onRemoved, records);
      var recIds := DeletedIds(toDelete);
      var count := collection.RemoveIds(recIds);
      status.deleted := status.deleted + count;
      syncEvents.NotifyEach(RemovedNotices(resource, recIds));
    }

    /** The record `processRecord` stores, or vetoes, from the parent documents `st`. */
    function Prepared(record: Record, st: ParentState): (r: (Ingest, ParentState))
      requires Parents() <= st.Keys
      ensures r.1.Keys == st.Keys
    {
      var p := LookupsApplied(CleanedRecord(record), st);
      (IngestDecision(options.transform, p.0), p.1)
    }

    /** The store, counters and notifications after `processRecord`, given
        the store `docs` it finds once the lookups are done. */
    function RecordEffect(d: Ingest, docs: Docs, counters: Counters): (e: Effect)
      ensures d.Vetoed? ==> e == DeletionEffect([d.record], docs, counters)
      ensures d.Upserted? ==>
        var inserted := IdOf(d.record) !in docs;
        && e.docs == UpsertDocs(docs, "Id", IdOf(d.record), d.record)
        && e.counters.inserted == counters.inserted + (if inserted then 1 else 0)
        && e.counters.updated == counters.updated + (if inserted then 0 else 1)
        && e.counters.deleted == counters.deleted
        && e.counters.lastRecordSyncDate == Get(d.record, options.timeStampField)
        && e.notices == [Notice(if inserted then "inserted" else "updated", resource, d.record)]
    {
      match d
      case Vetoed(r) => DeletionEffect([r], docs, counters)
      case Upserted(r) =>
        var inserted := IdOf(r) !in docs;
        Effect(UpsertDocs(docs, "Id", IdOf(r), r),
               Counters(if inserted then counters.updated else counters.updated + 1,
                        if inserted then counters.inserted + 1 else counters.inserted,
                        counters.deleted, Get(r, options.timeStampField)),
               [Notice(if inserted then "inserted" else "updated", resource, r)])
    }

    /** What `processRecord(record, status)` did, from the counters `counters`. */
    twostate predicate RecordProcessed(record: Record, counters: Counters, new status: SyncStatus)
      reads collection, syncEvents, status, Parents()
    {
      var p := Prepared(record, old(StateOf(Parents())));
      var base := if collection in Parents() then p.1[collection] else old(collection.docs);
      var e := RecordEffect(p.0, base, counters);
      && collection.docs == e.docs && status.Snapshot() == e.counters && syncEvents.Notified(e.notices)
      && (forall c :: c in Parents() && c != collection ==> c.docs == p.1[c])
    }

    /** `processRecord(record, status)`: clean, apply the lookups, apply the
        transform, then upsert by `Id` and announce. */
    method ProcessRecord(record: Record, status: SyncStatus)
      modifies collection, syncEvents, status, Parents()
      ensures RecordProcessed(record, old(status.Snapshot()), status)
    {
      ghost var counters := status.Snapshot();
      var d := Prepare(record);
      ghost var p := Prepared(record, old(StateOf(Parents())));
      ghost var base := collection.docs;
      assert base == if collection in Parents() then p.1[collection] else old(collection.docs);
      assert syncEvents.listeners == old(syncEvents.listeners) && syncEvents.notices == old(syncEvents.notices)
        && syncEvents.deliveries == old(syncEvents.deliveries);
      StoreRecord(d, status);
      assert forall c :: c in Parents() && c != collection ==> c.docs == p.1[c];
    }

    /** The first half of `processRecord`: cleaning, the lookups, the transform. */
    method Prepare(record: Record) returns (d: Ingest)
      modifies Parents()
      ensures var p := Prepared(record, old(StateOf(Parents())));
        d == p.0 && forall c :: c in Parents() ==> c.docs == p.1[c]
    {
      var rec := CleanSfRecord(record);
      if lookups.Some? {
        rec := lookups.value.OnChildSynced(rec);
      }
      if options.transform.Some? {
        var t := options.transform.value(rec);
        if t.returned == ReturnedFalse {
          d := Vetoed(t.mutated);
        } else if t.returned.ReturnedRecord? {
          d := Upserted(t.returned.record);
        } else {
          d := Upserted(t.mutated);
        }
      } else {
        d := Upserted(rec);
      }
    }

    /** The second half of `processRecord`: the veto's deletion, or the
        upsert by `Id` with its counter and notification. */
    method StoreRecord(d: Ingest, status: SyncStatus)
      modifies collection, syncEvents, status
      ensures var e := RecordEffect(d, old(collection.docs), old(status.Snapshot()));
        collection.docs == e.docs && status.Snapshot() == e.counters && syncEvents.Notified(e.notices)
      ensures collection.hooks == old(collection.hooks) && collection.nextSerial == old(collection.nextSerial)
      ensures forall c :: c in Parents() && c != collection ==> c.docs == old(c.docs)
    {
      if d.Vetoed? {
        ProcessDeletedRecords([d.record], status);
        return;
      }
      var rec := d.record;
      var inserted := collection.Upsert("Id", IdOf(rec), rec);
      if inserted {
        status.inserted := status.inserted + 1;
        syncEvents.NotifyReceived("inserted", resource, rec);
      } else {
        status.updated := status.updated + 1;
        syncEvents.NotifyReceived("updated", resource, rec);
      }
      status.lastRecordSyncDate := Get(rec, options.timeStampField);
    }
  }

  /** The methods of the timer object that `setTimeout` returns on the
      server, which is what `delay` hands back. */
  const TimerMethods: set<string> := {"hasRef", "ref", "refresh", "unref"}

  /** Calling `timer[name](...)` on the value `delay(...)` returned. */
  function CallOnTimer(name: string): (r: Result<bool>)
    ensures r.Ok? <==> name in TimerMethods
  {
    if name in TimerMethods then Ok(true) else Threw(TypeError("delay(...)." + name + " is not a function"))
  }

  /** `init()` as written, for a subscription that has made `subscribed`
      subscriptions: the handler is built by calling `bind` on what `delay`
      returned, and only when that succeeds is the topic subscribed to. */
  function SubscriptionInitAsWritten(subscribed: nat): (r: Result<nat>)
    ensures r.Threw? <==> CallOnTimer("bind").Threw?
    ensures r.Ok? ==> r.value == subscribed
  {
    match CallOnTimer("bind")
    case Threw(e) => Threw(e)
    case Ok(_) => Ok(subscribed)
  }

  /** A timer has no `bind`: `init` as written throws before it subscribes. */
  lemma SubscriptionInitAsWrittenThrows(subscribed: nat)
    ensures SubscriptionInitAsWritten(subscribed) == Threw(TypeError("delay(...).bind is not a function"))
  {
    assert "bind" !in TimerMethods;
  }

  /** The streaming subscription of a sync. */
  class Subscription {
    const collectionSync: CollectionSync
    const topic: string
    /** The handle of the live subscription. */
    var subscription: Option<nat>
    /** How many subscriptions were made, and the handles cancelled. */
    var subscribed: nat
    var cancelled: seq<nat>

    constructor(collectionSync: CollectionSync, topic: string)
      ensures this.collectionSync == collectionSync && this.topic == topic
      ensures subscription.None? && subscribed == 0 && cancelled == []
    {
      this.collectionSync := collectionSync;
      this.topic := topic;
      subscription := None;
      subscribed := 0;
      cancelled := [];
    }

    /** `init()` as evidently intended: subscribes to the topic, with the
        message handler delayed and bound to the subscription, and keeps
        the handle. */
    method Init()
      modifies this
      ensures subscription == Some(old(subscribed)) && subscribed == old(subscribed) + 1
      ensures cancelled == old(cancelled)
    {
      subscription := Some(subscribed);
      subscribed := subscribed + 1;
    }

    /** `deinit()`: cancels the live subscription, if any, and forgets it. */
    method Deinit()
      modifies this
      ensures subscription.None? && subscribed == old(subscribed)
      ensures old(subscription).Some? ==> cancelled == old(cancelled) + [old(subscription).value]
      ensures old(subscription).None? ==> cancelled == old(cancelled)
    {
      if subscription.Some? {
        cancelled := cancelled + [subscription.value];
        subscription := None;
      }
    }

    /** `processMessage(message)`: deletions and changes go through the
        sync's ingestion with a fresh zeroed status; other events are ignored. */
    method ProcessMessage(message: StreamMessage) returns (status: SyncStatus)
      modifies collectionSync.collection, collectionSync.syncEvents, collectionSync.Parents()
      ensures fresh(status)
      ensures message.eventType == "deleted" ==>
        collectionSync.DeletionsApplied([message.sobject], old(collectionSync.collection.docs), Counters(0, 0, 0, Undefined), status)
      ensures message.eventType == "created" || message.eventType == "updated" ==>
        collectionSync.RecordProcessed(CleanTimeStampInDateFields(message.sobject), Counters(0, 0, 0, Undefined), status)
      ensures message.eventType !in {"deleted", "created", "updated"} ==>
        && status.Snapshot() == Counters(0, 0, 0, Undefined)
        && unchanged(collectionSync.collection) && unchanged(collectionSync.syncEvents)
        && forall c :: c in collectionSync.Parents() ==> unchanged(c)
    {
      status := new SyncStatus(Undefined);
      if message.eventType == "deleted" {
        collectionSync.ProcessDeletedRecords([message.sobject], status);
      } else if message.eventType == "created" || message.eventType == "updated" {
        collectionSync.ProcessRecord(CleanTimeStampInDateFields(message.sobject), status);
      }
    }
  }
}
