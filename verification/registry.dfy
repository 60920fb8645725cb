/** The package's singleton: the registry of running syncs keyed by
    resource, and the synchronous wrappers around remote record operations. */
module SyncForce {
  import opened Values
  import opened Store
  import opened Events
  import Connection
  import opened CollectionSync
  import opened MetadataSync

  /** A registered sync: a collection sync, or the metadata sync kept under `"metadata"`. */
  datatype SyncEntry = CollectionEntry(sync: CollectionSync) | MetadataEntry(meta: MetadataSync)

  const MetadataKey: string := "metadata"

  /** The validation `upsert` applies, as written: the condition handed to
      `Match.Where` is `check(x, Object) && !!x[extIdField]`, and `check`
      returns nothing, so the condition is never truthy and the validation
      fails for every argument. */
  function UpsertCheckAsWritten(data: Value, extIdField: string): (ok: bool)
  {
    var checkResult := Undefined;
    Truthy(checkResult) && Truthy(Get(AsRecord(data), extIdField))
  }

  /** Even a well-formed record carrying its external id is refused. */
  lemma UpsertCheckAsWrittenRejectsAll(data: Value, extIdField: string)
    ensures !UpsertCheckAsWritten(data, extIdField)
  {
  }

  /** The evidently intended validation: an object whose external id field is set. */
  function UpsertCheck(data: Value, extIdField: string): (ok: bool)
    ensures ok <==> data.Obj? && extIdField in data.fields && Truthy(data.fields[extIdField])
  {
    data.Obj? && Truthy(Get(data.fields, extIdField))
  }

  /** A record with its external id set passes the intended validation and
      fails the one as written. */
  lemma UpsertCheckDiffers()
    ensures var data := Obj(map["Ext__c" := Str("A-1")]);
      UpsertCheck(data, "Ext__c") && !UpsertCheckAsWritten(data, "Ext__c")
  {
  }

  class SyncForce {
    /** `_syncEvents`. */
    const events: SyncEvents
    /** Holds `_connectionOptions`. */
    const connection: Connection.Connection
    const dateTimeLiteral: int -> string
    /** `_currentSyncs`. */
    var currentSyncs: map<string, SyncEntry>

    constructor(events: SyncEvents, connection: Connection.Connection, dateTimeLiteral: int -> string)
      ensures this.events == events && this.connection == connection && this.dateTimeLiteral == dateTimeLiteral
      ensures currentSyncs == map[]
    {
      this.events := events;
      this.connection := connection;
      this.dateTimeLiteral := dateTimeLiteral;
      currentSyncs := map[];
    }

    /** The collection sync registered under `resource`, if that is what is registered. */
    function CollectionSyncOf(resource: string): Option<CollectionSync>
      reads this
    {
      if resource in currentSyncs && currentSyncs[resource].CollectionEntry? then Some(currentSyncs[resource].sync) else None
    }

    /** What stopping the sync registered under `resource` may change. */
    function StopFrameOf(resource: string): set<object>
      reads this, if CollectionSyncOf(resource).Some? then {CollectionSyncOf(resource).value} else {}
    {
      if resource !in currentSyncs then {}
      else match currentSyncs[resource]
        case CollectionEntry(c) => c.StopFrame()
        case MetadataEntry(m) => {m}
    }

    /** The hooks left on `c` once the sync registered under `resource` is
        stopped: a started collection sync whose collection hooks sit on `c`
        takes away the four it keeps. */
    ghost function HooksAfterStop(resource: string, c: Collection): set<Registration>
      reads this, if CollectionSyncOf(resource).Some? then {CollectionSyncOf(resource).value} else {}
      reads StopFrameOf(resource), c
    {
      match CollectionSyncOf(resource)
      case Some(s) =>
        if s.intervalHandle && s.collectionHooks.Some? && s.collectionHooks.value.collection == c
        then c.hooks - set k | k in s.collectionHooks.value.collectionHooks
        else c.hooks
      case None => c.hooks
    }

    /** What running the sync registered under `resource` may change. */
    function RunFrameOf(resource: string): set<object>
      reads this
    {
      if resource !in currentSyncs then {}
      else match currentSyncs[resource]
        case CollectionEntry(c) => {c}
        case MetadataEntry(m) => {m, m.collection}
    }

    /** `syncCollection(collection, resource, condition, options)`: stops the
        sync already registered for the resource, then makes, starts and
        registers a new one. Without a login the new sync cannot be made:
        the call throws, and the stopped sync stays registered. */
    method SyncCollection(collection: Collection, resource: string, condition: Condition, options: SyncOptions,
                          fields: Option<seq<string>>, now: int) returns (r: Result<CollectionSync>)
      requires collection.Valid()
      modifies this, collection, events, StopFrameOf(resource)
      ensures r.Threw? <==> connection.connectionOptions.None?
      ensures r.Threw? ==> r.error == Connection.NotInitialized && currentSyncs == old(currentSyncs)
      ensures r.Ok? ==>
        && fresh(r.value) && currentSyncs == old(currentSyncs)[resource := CollectionEntry(r.value)]
        && r.value.collection == collection && r.value.resource == resource && r.value.options == options
        && r.value.syncEvents == events && Some(r.value.session) == connection.connectionOptions
        && r.value.intervalHandle && r.value.running && |r.value.queries| == 1
      ensures resource in old(currentSyncs) && old(currentSyncs)[resource].CollectionEntry? ==>
        !old(currentSyncs)[resource].sync.intervalHandle
      ensures resource in old(currentSyncs) && old(currentSyncs)[resource].CollectionEntry? ==>
        var s := old(currentSyncs)[resource].sync;
        && s.subscription == old(s.subscription)
        && (old(s.intervalHandle) && s.subscription.Some? ==> s.subscription.value.subscription.None?)
        && (old(s.intervalHandle) && s.collectionHooks.Some? && s.collectionHooks.value.collection != collection ==>
              var h := s.collectionHooks.value.collection;
              h.hooks == old(h.hooks) - set k | k in s.collectionHooks.value.collectionHooks)
      ensures r.Threw? ==> collection.hooks == old(HooksAfterStop(resource, collection))
      ensures r.Ok? ==> collection.hooks == old(HooksAfterStop(resource, collection)) + r.value.SetupHooks(old(collection.nextSerial))
      ensures resource in old(currentSyncs) && old(currentSyncs)[resource].MetadataEntry? ==>
        !old(currentSyncs)[resource].meta.intervalHandle
    {
      ghost var afterStop := HooksAfterStop(resource, collection);
      StopRegistered(resource, collection);
      assert collection.hooks == afterStop;
      r := StartCollectionSync(collection, resource, condition, options, fields, now);
    }

    /** The second half of `syncCollection`: makes, starts and registers the
        new sync, or throws without a login. */
    method StartCollectionSync(collection: Collection, resource: string, condition: Condition, options: SyncOptions,
                               fields: Option<seq<string>>, now: int) returns (r: Result<CollectionSync>)
      requires collection.Valid()
      modifies this, collection, events
      ensures r.Threw? <==> connection.connectionOptions.None?
      ensures r.Threw? ==> r.error == Connection.NotInitialized && currentSyncs == old(currentSyncs)
      ensures r.Ok? ==>
        && fresh(r.value) && currentSyncs == old(currentSyncs)[resource := CollectionEntry(r.value)]
        && r.value.collection == collection && r.value.resource == resource && r.value.options == options
        && r.value.syncEvents == events && Some(r.value.session) == connection.connectionOptions
        && r.value.intervalHandle && r.value.running && |r.value.queries| == 1
      ensures r.Threw? ==> collection.hooks == old(collection.hooks)
      ensures r.Ok? ==> collection.hooks == old(collection.hooks) + r.value.SetupHooks(old(collection.nextSerial))
    {
      var session := connection.GetConnection();
      if session.Threw? {
        return Threw(session.error);
      }
      var c := new CollectionSync(events, connection, session.value, collection, resource, condition, options, fields, dateTimeLiteral);
      assert this !in c.Components();
      c.Start(now);
      currentSyncs := currentSyncs[resource := CollectionEntry(c)];
      r := Ok(c);
    }

    /** The `stop()` of the sync registered under `resource`, if any. */
    method StopRegistered(resource: string, collection: Collection)
      modifies StopFrameOf(resource)
      ensures currentSyncs == old(currentSyncs)
      ensures resource in currentSyncs && currentSyncs[resource].CollectionEntry? ==> !currentSyncs[resource].sync.intervalHandle
      ensures resource in currentSyncs && currentSyncs[resource].MetadataEntry? ==> !currentSyncs[resource].meta.intervalHandle
      ensures resource in currentSyncs && currentSyncs[resource].CollectionEntry? ==>
        var s := currentSyncs[resource].sync;
        && s.subscription == old(s.subscription)
        && (old(s.intervalHandle) && s.subscription.Some? ==> s.subscription.value.subscription.None?)
        && (old(s.intervalHandle) && s.collectionHooks.Some? ==>
              var h := s.collectionHooks.value.collection;
              h.hooks == old(h.hooks) - set k | k in s.collectionHooks.value.collectionHooks)
      ensures collection.hooks == old(HooksAfterStop(resource, collection))
      ensures collection.nextSerial == old(collection.nextSerial)
      ensures old(collection.Valid()) ==> collection.Valid()
    {
      if resource in currentSyncs {
        match currentSyncs[resource]
        case CollectionEntry(c) =>
          c.Stop();
        case MetadataEntry(m) =>
          m.Stop();
      }
    }

    /** `syncMetadata(collection, metaType, fullNames)`, with `reply` the
        outcome of the first read. The sync registered under `"metadata"`
        before is replaced without being stopped. */
    method SyncMetadata(collection: Collection, metaType: string, fullNames: seq<string>, reply: Result<Value>)
      returns (r: Result<MetadataSync>)
      modifies this, collection
      ensures r.Threw? <==> connection.connectionOptions.None?
      ensures r.Threw? ==>
        (r.error == Connection.NotInitialized && currentSyncs == old(currentSyncs)
         && collection.docs == old(collection.docs))
      ensures r.Ok? ==>
        && fresh(r.value) && currentSyncs == old(currentSyncs)[MetadataKey := MetadataEntry(r.value)]
        && r.value.collection == collection && r.value.metaType == metaType && r.value.fullNames == fullNames
        && r.value.intervalHandle && r.value.activeIntervals == 1 && !r.value.running
        && r.value.readLog == [MetadataRead(metaType, fullNames)]
        && collection.docs == r.value.ReadOutcome(old(collection.docs), reply).0
      ensures collection.hooks == old(collection.hooks)
    {
      var session := connection.GetConnection();
      if session.Threw? {
        return Threw(session.error);
      }
      var m := new MetadataSync(session.value, collection, metaType, fullNames);
      var _ := m.Start(reply);
      currentSyncs := currentSyncs[MetadataKey := MetadataEntry(m)];
      r := Ok(m);
    }

    /** `runSync(resource)`: runs the registered sync, if any, without a
        callback; `reply` answers a metadata sync's read. */
    method RunSync(resource: string, now: int, reply: Result<Value>)
      modifies RunFrameOf(resource)
      ensures resource in currentSyncs && currentSyncs[resource].CollectionEntry? ==>
        currentSyncs[resource].sync.RunEffect(now, false)
      ensures resource in currentSyncs && currentSyncs[resource].MetadataEntry? ==>
        currentSyncs[resource].meta.RunApplied(reply)
    {
      if resource in currentSyncs {
        match currentSyncs[resource]
        case CollectionEntry(c) =>
          c.Run(now, false);
        case MetadataEntry(m) =>
          var _ := m.Run(reply);
      }
    }

    /** `_invokeSobjectMethod(method, triggerSync, resource, ...args)`: the
        remote call answered by `reply`; after a successful call with
        `triggerSync`, the resource's sync runs. */
    method InvokeSobjectMethod(operation: Connection.SobjectMethod, triggerSync: bool, resource: string, args: seq<Value>,
                               reply: Result<Value>, now: int, readReply: Result<Value>) returns (r: Result<Value>)
      modifies connection, RunFrameOf(resource)
      ensures r == Connection.CallOutcome(old(connection.connectionOptions), reply)
      ensures connection.calls == Connection.CallsAfter(old(connection.connectionOptions), old(connection.calls),
                                                        Connection.RemoteCall(operation, resource, args))
      ensures connection.connectionOptions == old(connection.connectionOptions)
      ensures !(triggerSync && r.Ok?) ==> forall o :: o in RunFrameOf(resource) && o != connection ==> unchanged(o)
      ensures triggerSync && r.Ok? && resource in currentSyncs && currentSyncs[resource].CollectionEntry? ==>
        currentSyncs[resource].sync.RunEffect(now, false)
      ensures triggerSync && r.Ok? && resource in currentSyncs && currentSyncs[resource].MetadataEntry? ==>
        currentSyncs[resource].meta.RunApplied(readReply)
    {
      r := connection.Invoke(operation, resource, args, reply);
      if triggerSync && r.Ok? {
        RunSync(resource, now, readReply);
      }
    }

    /** `find(entity, conditions, fields)`. */
    method Find(entity: string, conditions: Value, fields: Value, reply: Result<Value>) returns (r: Result<Value>)
      modifies connection
      ensures r == Connection.CallOutcome(old(connection.connectionOptions), reply)
      ensures connection.calls == Connection.CallsAfter(old(connection.connectionOptions), old(connection.calls),
                                                        Connection.RemoteCall(Connection.Find, entity, [conditions, fields]))
      ensures connection.connectionOptions == old(connection.connectionOptions)
    {
      r := connection.Invoke(Connection.Find, entity, [conditions, fields], reply);
    }

    /** `retrieve(entity, id)`: `id` is one id or a list of them. */
    method Retrieve(entity: string, id: Value, reply: Result<Value>) returns (r: Result<Value>)
      modifies connection
      ensures !Connection.IsIdArgument(id) ==> r == Threw(Connection.MatchError) && connection.calls == old(connection.calls)
      ensures Connection.IsIdArgument(id) ==>
        (r == Connection.CallOutcome(old(connection.connectionOptions), reply)
         && connection.calls == Connection.CallsAfter(old(connection.connectionOptions), old(connection.calls),
                                                     Connection.RemoteCall(Connection.Retrieve, entity, [id])))
      ensures connection.connectionOptions == old(connection.connectionOptions)
    {
      if !Connection.IsIdArgument(id) {
        return Threw(Connection.MatchError);
      }
      r := connection.Invoke(Connection.Retrieve, entity, [id], reply);
    }

    /** `create(entity, data)`: one record or a list of them; no sync is triggered. */
    method Create(entity: string, data: Value, reply: Result<Value>) returns (r: Result<Value>)
      modifies connection
      ensures !Connection.IsDataArgument(data) ==> r == Threw(Connection.MatchError) && connection.calls == old(connection.calls)
      ensures Connection.IsDataArgument(data) ==>
        (r == Connection.CallOutcome(old(connection.connectionOptions), reply)
         && connection.calls == Connection.CallsAfter(old(connection.connectionOptions), old(connection.calls),
                                                     Connection.RemoteCall(Connection.Create, entity, [data])))
      ensures connection.connectionOptions == old(connection.connectionOptions)
    {
      if !Connection.IsDataArgument(data) {
        return Threw(Connection.MatchError);
      }
      r := connection.Invoke(Connection.Create, entity, [data], reply);
    }

    /** `update(entity, data)`: the record must carry a string `Id`. */
    method Update(entity: string, data: Value, reply: Result<Value>) returns (r: Result<Value>)
      modifies connection
      ensures !Connection.HasStringId(data) ==> r == Threw(Connection.MatchError) && connection.calls == old(connection.calls)
      ensures Connection.HasStringId(data) ==>
        (r == Connection.CallOutcome(old(connection.connectionOptions), reply)
         && connection.calls == Connection.CallsAfter(old(connection.connectionOptions), old(connection.calls),
                                                     Connection.RemoteCall(Connection.Update, entity, [data])))
      ensures connection.connectionOptions == old(connection.connectionOptions)
    {
      if !Connection.HasStringId(data) {
        return Threw(Connection.MatchError);
      }
      r := connection.Invoke(Connection.Update, entity, [data], reply);
    }

    /** `upsert(entity, data, extIdField)` with the intended validation; a
        successful call runs the resource's sync. */
    method Upsert(entity: string, data: Value, extIdField: string, reply: Result<Value>, now: int, readReply: Result<Value>)
      returns (r: Result<Value>)
      modifies connection, RunFrameOf(entity)
      ensures !UpsertCheck(data, extIdField) ==>
        r == Threw(Connection.MatchError) && connection.calls == old(connection.calls) && unchanged(RunFrameOf(entity))
      ensures UpsertCheck(data, extIdField) ==>
        (r == Connection.CallOutcome(old(connection.connectionOptions), reply)
         && connection.calls == Connection.CallsAfter(old(connection.connectionOptions), old(connection.calls),
                                                     Connection.RemoteCall(Connection.Upsert, entity, [data, Str(extIdField)])))
      ensures r.Ok? && entity in currentSyncs && currentSyncs[entity].CollectionEntry? ==>
        currentSyncs[entity].sync.RunEffect(now, false)
      ensures r.Ok? && entity in currentSyncs && currentSyncs[entity].MetadataEntry? ==>
        currentSyncs[entity].meta.RunApplied(readReply)
      ensures connection.connectionOptions == old(connection.connectionOptions)
    {
      if !UpsertCheck(data, extIdField) {
        return Threw(Connection.MatchError);
      }
      r := InvokeSobjectMethod(Connection.Upsert, true, entity, [data, Str(extIdField)], reply, now, readReply);
    }

    /** `destroy(entity, id)`: one id or a list of them. */
    method Destroy(entity: string, id: Value, reply: Result<Value>) returns (r: Result<Value>)
      modifies connection
      ensures !Connection.IsIdArgument(id) ==> r == Threw(Connection.MatchError) && connection.calls == old(connection.calls)
      ensures Connection.IsIdArgument(id) ==>
        (r == Connection.CallOutcome(old(connection.connectionOptions), reply)
         && connection.calls == Connection.CallsAfter(old(connection.connectionOptions), old(connection.calls),
                                                     Connection.RemoteCall(Connection.Destroy, entity, [id])))
      ensures connection.connectionOptions == old(connection.connectionOptions)
    {
      if !Connection.IsIdArgument(id) {
        return Threw(Connection.MatchError);
      }
      r := connection.Invoke(Connection.Destroy, entity, [id], reply);
    }
  }
}
