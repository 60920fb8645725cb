# syncforce, modelled in Dafny

This project models the core of syncforce. syncforce is a Meteor package that
keeps local Mongo collections in step with the entities of a Salesforce org.

Each synchronised collection has a `CollectionSync`:
- it asks the remote store for the records changed since the latest local
  timestamp, the watermark;
- it cleans each record and applies the configured lookups and transform;
- it upserts the record by `Id`, counts it and announces it on the event bus;
- it then asks for the records deleted in a time window and removes them locally.

The other parts of the core:
- The optional streaming subscription feeds single records through the same
  steps.
- Optional outbound hooks replicate local inserts, updates and removals to the
  remote store.
- `LookupCollection` keeps many-to-one relations denormalised. A child gets a
  snapshot of its parent, and a parent gets a related list of its children.
- `MetadataSync` copies metadata definitions into a local collection.
- `buildEntitySchema` turns the remote field metadata of an entity into a
  schema dictionary.
- The package singleton keeps the registry of running syncs and wraps the
  remote CRUD calls.

How the model is laid out:
- Every object that the code updates in place is a Dafny `class`, and its
  methods carry `modifies` clauses. These are the sync, the status counters,
  the subscription, the hooks, the lookups, the singleton, the event bus, the
  connection and the local collections.
- Each state-changing method is tied to a specification function, for example
  `RecordEffect`, `DeletionEffect`, `UpsertAll`, `AddOrUpdateChildDocs` and
  `DeletionWindow`.
- The properties are proved as lemmas about those functions.
- The pure helpers are functions: the utilities, the schema builder, the
  list updates of the lookups and the hook selection.

The remote store, the clock and the timers are replaced by inputs:
- The outcome of every remote call (`reply`, `deleted`) is an input.
- So is the current time (`now`, `syncStart`).
- `jsforce.Date.toDateTimeLiteral` is an uninterpreted function, `dateTimeLiteral`.
- An interval is a flag on its owner. `CollectionSync` also counts the
  intervals it has installed and not cleared.
- Remote calls are logged in `Connection.calls`.
- Bus notifications are logged as `notices`, and the deliveries to their
  handlers as `deliveries`.

Values are modelled as follows:
- A JavaScript value is `Values.Value`: `undefined`, `null`, booleans, numbers,
  strings, arrays or objects.
- A record is a map from field names to values.
- A collection is a map from key value to document, plus its set of installed
  hook registrations.

## Behaviour kept as written

In these places the code differs from what its description or its tests
suggest. The model follows the code.

- The query condition uses `timeStampField > watermark` (CollectionSync.js:195).
  A test expects `>=`. `WhereFor` builds `>`, so a record stamped exactly at the
  watermark is not fetched again.
- The schema makes a required field optional unless `allowMissingRequiredFields`
  is passed explicitly as `false` (buildEntitySchema.js:14, 44-45).
  `RequiredFieldOptionalByDefault` states this.
- `Lookup.deregister` has an empty body (lib/Lookup.js:56-58), so stopping a
  sync leaves the lookups' bus listeners in place.
- With `syncDeletedItems` false, the query's `end` handler does nothing
  (CollectionSync.js:113-126). The run guard stays set and the callback is
  never called, so later runs of that sync do nothing.
- `processDeletedRecords` removes documents but does not call
  `lookups.onChildRemoved` (CollectionSync.js:261-273). Parents keep removed
  children in their related lists.
- `syncMetadata` replaces the registry entry `"metadata"` without stopping the
  metadata sync already there (syncforce.js:171-179). The old interval keeps
  running.
- A transform vetoes a record only by returning exactly `false`. Any other falsy
  result keeps the record as the transform left it (CollectionSync.js:228-236).

## Model

| member | source | states |
|---|---|---|
| Store.UpsertDocs | CollectionSync.js:244-246 | the keyed document exists afterwards and holds every `$set` field; fields not set are kept, and every other document is unchanged |
| Store.UpsertDocsIdempotent | CollectionSync.js:244-246 | repeating an upsert with the same arguments changes nothing |
| Store.RemoveDocs | CollectionSync.js:268 | exactly the listed ids are gone, and the others are unchanged |
| Store.RemoveDocsCount | CollectionSync.js:268 | the count a removal reports is exactly how many documents the store lost |
| Store.Collection.FindOne | lib/Lookup.js:70 | returns a document exactly when one has the key, and that document |
| Store.Collection.Upsert | CollectionSync.js:244-249 | reports an insert exactly when no document had the key; documents become `UpsertDocs`; hooks are unchanged |
| Store.Collection.RemoveIds | CollectionSync.js:268 | the count equals the number of documents lost; documents become `RemoveDocs` |
| Store.Collection.AddHook | lib/Hooks.js:33-36 | installs one new registration, distinct from every one installed before |
| Store.Collection.RemoveHook | lib/Hooks.js:26-28 | removes that registration only; removing one already removed changes nothing |
| Connection.CallOutcome | syncforce.js:73-77 | without a login every call throws "not initialized"; after one, the remote reply is returned |
| Connection.CallsAfter | syncforce.js:284-290 | a call reaches the remote store only after a login |
| Connection.Connection.constructor | syncforce.js:16-17 | no connection options, no calls |
| Connection.Connection.Login | syncforce.js:26-60 | a successful login stores its options; a failed one leaves them unchanged; no remote record call is made |
| Connection.Connection.GetConnection | syncforce.js:73-77 | throws exactly when no login has succeeded, otherwise returns the stored options |
| Connection.Connection.Invoke | syncforce.js:284-290 | the result and the call log are those of `CallOutcome` and `CallsAfter`; the options are unchanged |
| Events.TypeList | syncforce.js:202-204 | a single event type becomes a one-element list, and a list is kept |
| Events.EventKey | syncforce.js:205 | the key is the event type, `:`, then the resource |
| Events.EventKeyInjective | syncforce.js:205 | for event types without `:`, equal keys mean equal type and resource |
| Events.AddListener | syncforce.js:205 | appends the handler to its key only |
| Events.AddAllListeners | syncforce.js:201-206 | registering appends the handler once per event type that gives the key, and touches no other key |
| Events.CountKeyIsOccurrences | syncforce.js:201-206 | the number of event types giving `e:r` is the number of occurrences of `e`, and zero for another resource |
| Events.ReceivedOnlyOnExactKey | syncforce.js:201-217 | a handler listens on `e:r` exactly when `e` is one of its types and `r` its resource, once per occurrence |
| Events.Deliveries | syncforce.js:215-217 | one delivery per listening handler, in registration order, each carrying the record, type and resource |
| Events.SyncEvents.constructor | syncforce.js:18 | no listeners, no notices, no deliveries |
| Events.SyncEvents.OnReceived | syncforce.js:201-206 | listeners become the registration of the handler under every type of the list; nothing is delivered |
| Events.SyncEvents.NotifyReceived | syncforce.js:215-217 | every handler on the exact key gets the record, in order; listeners are unchanged |
| Events.SyncEvents.NotifyEach | CollectionSync.js:269-271 | each notice in turn, with the deliveries of `Delivered` |
| FieldMetadata.GetFieldMetadata | getFieldMetadata.js:6-12 | throws exactly when no metadata document has the entity name; otherwise returns its `fields`, or `[]` when they are falsy |
| Hooks.SelectHook | lib/Hooks.js:109-114 | a bare function is the `before` hook only |
| Hooks.RunOutboundHookDecision | lib/Hooks.js:109-122 | only an explicit `false` cancels; a result that is the hook's own argument keeps the record object itself; another truthy result replaces the record; anything else keeps it |
| Hooks.BareIsBeforeOnly | lib/Hooks.js:112-114 | a bare function never runs as an `after` hook |
| Hooks.BeforeChain | lib/Hooks.js:45-46 | two `before` stages chained with `&&`: cancelled exactly when either cancels, with the second seeing the first's output |
| Hooks.ErrorHandling | lib/Hooks.js:124-133 | the same error is rethrown, marked sanitized exactly when it was sanitized or is not a `Meteor.Error` |
| Hooks.OnUpsert | lib/Hooks.js:101-107 | a local upsert always throws `syncforce.notimplemented` |
| Hooks.Hooks.constructor | lib/Hooks.js:9-23 | keeps the connection, collection, resource and hooks; no hook installed |
| Hooks.Hooks.Init | lib/Hooks.js:31-38 | installs exactly four new `before` hooks (insert, update, remove, upsert) and keeps their handles; the next serial moves by four |
| Hooks.Hooks.Deinit | lib/Hooks.js:25-29 | removes exactly the kept handles; documents are unchanged |
| Hooks.Hooks.OnInsert | lib/Hooks.js:40-59 | a cancelled insert makes no call and returns `false`; otherwise `create` gets the stripped payload, the local record takes the remote `Id`, and a remote error is rethrown; the `after` hooks see the record with its new `Id` when the payload is the record object itself (no hook, falsy results, or hooks handing back their argument), and the replacement record otherwise |
| Hooks.Hooks.OnUpdate | lib/Hooks.js:78-99 | no id or no `$set` makes no call; an empty payload makes no call; a cancelling `before` hook returns `false`; a payload whose `Id` is not a string fails `update`'s check (syncforce.js:267) and throws a sanitized `Match.Error` with no call; otherwise `update` is sent with `Id` and a remote error is rethrown |
| Hooks.Hooks.OnRemove | lib/Hooks.js:61-76 | no id makes no call; only a `before` result of exactly `false` cancels; an id that is neither a string nor a list of strings fails `destroy`'s check (syncforce.js:280) and throws a sanitized `Match.Error` with no call; `ENTITY_IS_DELETED` is ignored; other errors are rethrown |
| Hooks.InsertWithoutHooksSendsRecord | lib/Hooks.js:45-47 | with no outbound hooks the record itself is sent |
| Hooks.HooksReturningTheirArgumentKeepRecord | lib/Hooks.js:45-50 | `before` hooks that hand back their argument leave the record object itself as the payload, the object that then takes the remote `Id` |
| Lookup.ParentFields | lib/Lookup.js:38-42 | `Id` and `Name` come first, followed by the given fields |
| Lookup.ExtractNamedFields | lib/Lookup.js:167-177 | `null` exactly for a missing record; otherwise the chosen fields, with the record's own values |
| Lookup.FirstMatch | lib/Lookup.js:147-148 | the position of the first entry with the id, or -1 when none has it |
| Lookup.AddOrUpdateList | lib/Lookup.js:147-155 | the first entry with the child's id is replaced; without one, the child is appended |
| Lookup.Without | lib/Lookup.js:163-165 | every entry with the id is removed, and the others are kept |
| Lookup.WithoutPositions | lib/Lookup.js:163-165 | the result is the order-preserving filter of the list: the entries without the id, each once, at strictly increasing positions, with every such position taken |
| Lookup.AddOrUpdateKeepsIdsUnique | lib/Lookup.js:142-161 | adding or updating a child never duplicates an `Id` |
| Lookup.AddOrUpdateIdempotent | lib/Lookup.js:142-161 | adding the same child twice is the same as adding it once |
| Lookup.RemoveUndoesAdd | lib/Lookup.js:142-165 | removing a child after adding it leaves the list without that id |
| Lookup.RelatedListAfterAdd | lib/Lookup.js:145-156 | a missing list becomes `[child]`; an array is updated by `AddOrUpdateList`; any other value is left alone |
| Lookup.AddOrUpdateChildDocs | lib/Lookup.js:142-161 | only the parent's related list changes; a falsy parent id or a missing parent changes nothing |
| Lookup.RemoveChildDocs | lib/Lookup.js:163-165 | only the parent's related list loses the child |
| Lookup.AddOrUpdateChildInCollection | lib/Lookup.js:142-161 | the parent collection's documents become `AddOrUpdateChildDocs` |
| Lookup.RemoveChildFromCollection | lib/Lookup.js:163-165 | the parent collection's documents become `RemoveChildDocs` |
| Lookup.PropagateSnapshot | lib/Lookup.js:123-125 | exactly the children of the parent get the snapshot under the parent field, and the rest are unchanged |
| Lookup.FindChildren | lib/Lookup.js:106-107 | the keys returned are exactly those of the parent's children, and each snapshot is extracted from its child |
| Lookup.CallOnSingleton | lib/Lookup.js:46 | calling a name the singleton lacks throws, and calling one it has succeeds |
| Lookup.Lookup.constructor | lib/Lookup.js:32-43 | keeps the definition, with `parentFields` defaulted to `Id`, `Name`, then the given fields |
| Lookup.Lookup.RegisterEventsAsWritten | lib/Lookup.js:45-47 | registration as written throws, because its first call is to a method the singleton lacks |
| Lookup.Lookup.ListenersAfterRegister | lib/Lookup.js:46-47 | adds one handler on the parent's `inserted` key and one on its `updated` key, and nothing else |
| Lookup.Lookup.RegisterEvents | lib/Lookup.js:45-54 | bus listeners as `ListenersAfterRegister`; with a related list, exactly `EventHooks`: after-update, after-insert and after-remove hooks on the child collection, at the next three serials; without one, no hook |
| Lookup.Lookup.EventHooks | lib/Lookup.js:48-53 | the hooks a lookup installs are `after` hooks at serials from `n` on, three with a related list and none without |
| Lookup.Lookup.Deregister | lib/Lookup.js:56-58 | removes nothing: listeners and hooks are unchanged |
| Lookup.Lookup.SyncedRecord | lib/Lookup.js:67-86 | with a parent field: a falsy foreign key writes `null`; a truthy key whose parent exists writes the parent's snapshot; a truthy key whose parent is missing leaves the record unchanged; other fields are always kept |
| Lookup.Lookup.ParentDocsAfterSync | lib/Lookup.js:75-79 | with a related list and a truthy key, the child is added to the parent's list; otherwise the parents are unchanged |
| Lookup.Lookup.OnChildSynced | lib/Lookup.js:67-86 | returns `SyncedRecord`; parent documents become `ParentDocsAfterSync` |
| Lookup.Lookup.ParentDocsAfterRemove | lib/Lookup.js:93-98 | with a related list the child leaves its parent's list; otherwise nothing changes |
| Lookup.Lookup.OnChildRemoved | lib/Lookup.js:93-98 | parent documents become `ParentDocsAfterRemove` |
| Lookup.Lookup.OnParentUpdated | lib/Lookup.js:117-127 | with a parent field, exactly the parent's children get its new snapshot |
| Lookup.Lookup.OnParentInserted | lib/Lookup.js:102-114 | the snapshot goes onto the children; with a related list, the parent's list becomes the children's snapshots |
| Lookup.Lookup.OnChildUpdated | lib/Lookup.js:131-135 | the child's snapshot is added to or updated in its parent's list |
| Lookup.Lookup.Snapshot | lib/Lookup.js:72-74 | `null` for a missing parent; otherwise exactly the parent's values of the lookup's parent fields that it has |
| LookupCollection.WithoutList | lib/LookupCollection.js:6-7 | exactly the definitions without a related list, in order |
| LookupCollection.WithList | lib/LookupCollection.js:6-7 | exactly the definitions with a related list, in order |
| LookupCollection.OrderDefinitionsPartitioned | lib/LookupCollection.js:6-7 | every definition without a related list precedes every one with one |
| LookupCollection.OrderDefinitionsPermutation | lib/LookupCollection.js:6-11 | the ordering is a permutation of the definitions |
| LookupCollection.SortDefinitions | lib/LookupCollection.js:6-7 | sorting succeeds exactly on a list of definitions, which it orders |
| LookupCollection.ConstructAsWritten | CollectionSync.js:54 | the three-argument construction always throws |
| LookupCollection.SyncFoldKeepsOwnFields | lib/LookupCollection.js:22-27 | lookups only add parent snapshots: every other field of the child is kept |
| LookupCollection.SyncFoldWithoutListsKeepsParents | lib/LookupCollection.js:22-27 | without related lists, syncing a child leaves every parent document unchanged |
| LookupCollection.RegisteredListenersGrow | lib/LookupCollection.js:14-16 | registering never drops a listener already present |
| LookupCollection.EveryLookupListens | lib/LookupCollection.js:14-16 | after `init`, every lookup listens on its parent's `inserted` and `updated` keys |
| LookupCollection.LookupCollection.constructor | lib/LookupCollection.js:4-12 | one lookup per definition, in the partitioned order |
| LookupCollection.LookupCollection.OnChildSynced | lib/LookupCollection.js:22-27 | each lookup gets the previous one's output; the result and parents are those of the fold |
| LookupCollection.LookupCollection.OnChildRemoved | lib/LookupCollection.js:29-31 | every lookup removes the child, and parents are those of the fold |
| LookupCollection.LookupCollection.Init | lib/LookupCollection.js:14-16 | listeners become every lookup's registrations, in order; the hooks become the old ones plus `LookupHooks`, each lookup's `EventHooks` at the serials following the previous lookup's, and the next serial moves by their number |
| LookupCollection.LookupCollection.Deinit | lib/LookupCollection.js:18-20 | nothing registered is removed |
| MetadataSync.ResultList | MetadataSync.js:43-44 | an array is kept, and a single definition is wrapped |
| MetadataSync.MetaFields | MetadataSync.js:59-61 | the definition's fields plus `metaDataType` |
| MetadataSync.FirstNullish | MetadataSync.js:58-59 | the position of the first missing definition, or the length when none is missing |
| MetadataSync.UpsertOne | MetadataSync.js:58-66 | upserts by `fullName` and bumps `updated` or `inserted` by whether the key existed |
| MetadataSync.UpsertAll | MetadataSync.js:53-68 | inserted plus updated is the number read; the store grows by the number inserted; no key is lost |
| MetadataSync.UpsertAllKeys | MetadataSync.js:58-61 | nothing but existing keys and the definitions' `fullName`s is stored |
| MetadataSync.UpsertOneTags | MetadataSync.js:59-61 | an upsert tags its own document and keeps the others' tags |
| MetadataSync.UpsertAllTags | MetadataSync.js:58-61 | every definition read is stored under its `fullName`, tagged with the type |
| MetadataSync.UpsertAllLeavesOthers | MetadataSync.js:58-61 | a document no definition names is left as it was |
| MetadataSync.UpsertAllAgainInsertsNothing | MetadataSync.js:58-66 | upserting the same definitions again inserts nothing |
| MetadataSync.MetadataSync.constructor | MetadataSync.js:11-18 | keeps the collection, type and names; not running, no interval |
| MetadataSync.MetadataSync.ProcessResults | MetadataSync.js:53-69 | without a missing definition: documents and counters are those of `UpsertAll`; with one: the definitions before it are stored, then it throws |
| MetadataSync.MetadataSync.StoreReply | MetadataSync.js:41-49 | a failed read is logged as its error; otherwise the definitions are processed |
| MetadataSync.MetadataSync.Run | MetadataSync.js:35-51 | nothing while running; otherwise one read for the type and names, the reply stored, and the guard cleared |
| MetadataSync.MetadataSync.Start | MetadataSync.js:20-26 | installs the interval once, then runs |
| MetadataSync.MetadataSync.Stop | MetadataSync.js:28-33 | clears the interval |
| EntitySchema.TypeForField | buildEntitySchema.js:55-65 | `Checkbox` maps to Boolean, exactly; `Currency` and `Number` to Number, exactly; every other type to String |
| EntitySchema.FieldDefFor | buildEntitySchema.js:16-45 | summary and formula fields get no entry; the label, type, date pattern and optionality follow the metadata |
| EntitySchema.RelationshipName | buildEntitySchema.js:22 | the relationship name is never longer than the field name and never ends in `__c` |
| EntitySchema.CustomRelationshipName | buildEntitySchema.js:22 | for every stem, `stem__c` relates through `stem__r` |
| EntitySchema.StandardRelationshipName | buildEntitySchema.js:22 | for every stem not ending in `__c`, `stemId` relates through `stem` |
| EntitySchema.RelationshipNameExamples | buildEntitySchema.js:22 | `OwnerId` gives `Owner`, `AccountId` gives `Account`, `Record_Owner__c` gives `Record_Owner__r` |
| EntitySchema.RelationshipDef | buildEntitySchema.js:20-26 | a lookup's relationship entry is an optional object labelled after the field |
| EntitySchema.BuildEntitySchema | buildEntitySchema.js:50-52 | the schema always has an optional string `Id` |
| EntitySchema.ReduceKeys | buildEntitySchema.js:15-49 | the reduce's keys are exactly the included names and the lookups' relationship names |
| EntitySchema.SchemaKeys | buildEntitySchema.js:14-53 | the schema's keys are `Id`, the included fields and the relationship names |
| EntitySchema.AllOptionalWhenAllowed | buildEntitySchema.js:44-45 | with the flag set, every entry is optional |
| EntitySchema.LastFieldDecides | buildEntitySchema.js:15-49 | a field whose name no later field writes has its own entry |
| EntitySchema.RelationshipEntryPresent | buildEntitySchema.js:20-27 | a lookup whose relationship name no later entry overwrites has its relationship entry |
| EntitySchema.RequiredFieldOptionalByDefault | buildEntitySchema.js:44-45 | a required field is still optional with the default flag |
| Utility.RemoveNonSfKeys | lib/utility.js:29-37 | keeps exactly the keys that are not `_`-prefixed, not `__r`-suffixed and not nested, with their values |
| Utility.RemoveNonSfKeysSafe | lib/utility.js:29-37 | what remains holds scalars only, under plain keys |
| Utility.RemoveNonSfKeysIdempotent | lib/utility.js:29-37 | stripping twice strips nothing more |
| Utility.CleanTimeStampInDateFields | lib/utility.js:22-24 | each midnight time stamp becomes its date; every other value is kept |
| Utility.MidnightStampRoundTrip | lib/utility.js:23 | the date kept plus the midnight suffix is the original stamp |
| Utility.CleanTimeStampIdempotent | lib/utility.js:22-24 | cleaning twice changes nothing more |
| Utility.CleanedRecord | lib/utility.js:11-18 | the keys are kept; an entry holding `{records: [...]}` becomes an array of the same length whose objects are the nested records cleaned in turn and whose scalars are kept; every other entry is kept; no entry of the result holds a nested result |
| Utility.CleanSfRecord | lib/utility.js:11-18 | the key loop yields `CleanedRecord` |
| Utility.CleanedRecordIdempotent | lib/utility.js:11-18 | cleaning a cleaned record changes nothing |
| Utility.CleanSfRecordAsWritten | lib/utility.js:14 | succeeds exactly when no entry holds a nested result, and then returns the record unchanged |
| Utility.CleanSfRecordAsWrittenAgrees | lib/utility.js:11-18 | where the code as written succeeds, it agrees with the intended cleaning |
| Utility.CleanSfRecordAsWrittenThrows | lib/utility.js:14 | a record with a nested child result makes it throw |
| CollectionSync.SyncStatus.constructor | CollectionSync.js:94-99 | zero counters and the given `lastRecordSyncDate` |
| CollectionSync.LatestTimestamp | CollectionSync.js:181-188 | the largest numeric timestamp among the local documents; epoch 0 when none is a number but one is `null`; none when no document has either |
| CollectionSync.WhereFor | CollectionSync.js:189-203 | no watermark keeps the condition; otherwise `> literal` is added to an empty, text or object condition, keeping the other object fields |
| CollectionSync.WithRequiredFields | CollectionSync.js:206-216 | extends the list, in place, with the timestamp field and `Id`, adding only those; a list already holding both is returned as it is, so extending twice adds nothing more |
| CollectionSync.WithRequiredFieldsNoDuplicates | CollectionSync.js:211-214 | extending never duplicates a name |
| CollectionSync.DeletionWindow | CollectionSync.js:141-148 | ends at the run's start and spans at least a minute; starts at a watermark at most ten days old, otherwise five days before the start's day |
| CollectionSync.IngestDecision | CollectionSync.js:228-236 | vetoed exactly on `false`; a returned record replaces the input; otherwise the input as mutated is kept |
| CollectionSync.Surviving | CollectionSync.js:263-266 | keeps exactly the records `onRemoved` does not answer `false` for |
| CollectionSync.SurvivingPositions | CollectionSync.js:263-266 | the survivors are the order-preserving filter of the records: each once, at strictly increasing positions, with every record not vetoed taken |
| CollectionSync.DeletedIds | CollectionSync.js:267 | each record's `id`, or its `Id` when `id` is falsy |
| CollectionSync.RemovedNotices | CollectionSync.js:269-271 | one `removed` notice per id, in order, each carrying only `Id` |
| CollectionSync.WatermarkAfter | CollectionSync.js:118-121 | the watermark is always either the run's start or the last stored record's timestamp; a non-zero numeric timestamp is taken; a missing, `null` or zero one falls back to the run's start |
| CollectionSync.CollectionSync.constructor | CollectionSync.js:27-57 | keeps the options; not running, no watermark; hooks iff requested, a subscription iff a topic, lookups iff definitions, in partitioned order |
| CollectionSync.CollectionSync.Start | CollectionSync.js:59-74 | the first call installs the interval, sets up the subscription by the intended `Subscription.Init`, adds exactly `SetupHooks` (the four collection hooks, then the lookups' hooks at the following serials) and registers the lookups' listeners; every call then runs |
| CollectionSync.CollectionSync.InstallInterval | CollectionSync.js:60-71 | subscribes by the intended `Subscription.Init`; the hooks become the old ones plus exactly `SetupHooks`; registers the lookups' listeners; run state and documents are unchanged |
| CollectionSync.CollectionSync.InstallHooks | CollectionSync.js:67-70 | the collection hooks' `init`, then the lookups': the hooks become the old ones plus exactly `SetupHooks`, and the listeners every lookup's registrations |
| CollectionSync.CollectionSync.Stop | CollectionSync.js:76-87 | clears the interval, cancels the subscription and removes the installed hooks; a sync not started is unchanged |
| CollectionSync.CollectionSync.CreateQueryWhere | CollectionSync.js:175-204 | a missing watermark is inferred from the documents; the condition is `WhereFor`; an object condition is replaced in place |
| CollectionSync.CollectionSync.CreateQueryFields | CollectionSync.js:206-216 | `*` without a field list; otherwise the list is extended in place and used |
| CollectionSync.CollectionSync.Run | CollectionSync.js:91-103 | nothing while running; otherwise the guard is set, a zeroed status made, and one query issued, sorted on the timestamp field |
| CollectionSync.CollectionSync.OnRecord | CollectionSync.js:104-112 | the record is processed into the run's status |
| CollectionSync.CollectionSync.OnQueryEnd | CollectionSync.js:113-126 | without deletions synchronised, nothing and the guard stays set; otherwise the run finishes |
| CollectionSync.CollectionSync.FinishRun | CollectionSync.js:140-163 | one `deleted` request for the window; on success the deletions are applied; the guard is cleared, the watermark moved, the callback called with the error |
| CollectionSync.CollectionSync.Complete | CollectionSync.js:115-124 | guard cleared, watermark `WatermarkAfter`, one callback with the counters when a callback was given |
| CollectionSync.CollectionSync.OnQueryError | CollectionSync.js:127-133 | guard cleared, watermark kept, the callback gets the error |
| CollectionSync.CollectionSync.DeletionEffect | CollectionSync.js:261-273 | no records changes nothing; otherwise exactly the surviving ids are removed, counted by what was lost, and announced in order |
| CollectionSync.CollectionSync.ProcessDeletedRecords | CollectionSync.js:261-273 | store, counters and notices become `DeletionEffect` |
| CollectionSync.CollectionSync.RecordEffect | CollectionSync.js:237-253 | a veto removes the record; otherwise it is upserted by `Id`, counted in `inserted` when new and in `updated` otherwise, the other counter unchanged, stamped, and announced once |
| CollectionSync.CollectionSync.ProcessRecord | CollectionSync.js:224-254 | prepared then stored: store, counters, parents and notices are those of `Prepared` and `RecordEffect` |
| CollectionSync.CollectionSync.Prepare | CollectionSync.js:225-236 | the cleaned record after the lookups and the transform, and the parents the lookups leave |
| CollectionSync.CollectionSync.StoreRecord | CollectionSync.js:237-253 | store, counters and notices become `RecordEffect`; other parents are unchanged |
| CollectionSync.Subscription.constructor | lib/Subscription.js:13-17 | keeps the sync and topic; not subscribed |
| CollectionSync.Subscription.Init | lib/Subscription.js:19-26 | `init` as intended: one new subscription, kept |
| CollectionSync.CallOnTimer | lib/Subscription.js:23 | a method call on the timer `delay` returns succeeds exactly for the timer's own methods |
| CollectionSync.SubscriptionInitAsWritten | lib/Subscription.js:19-26 | `init` as written throws exactly when `bind` is not a timer method, and otherwise subscribes |
| CollectionSync.SubscriptionInitAsWrittenThrows | lib/Subscription.js:23 | `init` as written always throws a `TypeError` before subscribing |
| CollectionSync.Subscription.Deinit | lib/Subscription.js:28-33 | the live subscription, if any, is cancelled and forgotten |
| CollectionSync.Subscription.ProcessMessage | lib/Subscription.js:38-58 | `deleted` goes through the deletion path, `created`/`updated` through the record path, any other type changes nothing; each with a fresh status |
| SyncForce.UpsertCheckAsWrittenRejectsAll | syncforce.js:274 | the validation as written refuses every input |
| SyncForce.UpsertCheck | syncforce.js:274 | the intended validation accepts exactly an object whose external id is set |
| SyncForce.UpsertCheckDiffers | syncforce.js:274 | a record carrying its external id is refused as written and accepted as intended |
| SyncForce.SyncForce.constructor | syncforce.js:16-18 | no registered syncs |
| SyncForce.SyncForce.SyncCollection | syncforce.js:135-168 | the sync registered under the resource is stopped as by `Stop` (interval cleared, subscription cancelled, its kept hooks removed); then it throws exactly without a login, and otherwise registers and starts a new one; the collection's hooks are those left by the stop plus the new sync's `SetupHooks` |
| SyncForce.SyncForce.StartCollectionSync | syncforce.js:163-167 | throws exactly without a login; otherwise a new started sync is registered under the resource and its `SetupHooks` are added |
| SyncForce.SyncForce.StopRegistered | syncforce.js:160-162 | the registered sync, if any, has no interval afterwards; a started collection sync has its subscription cancelled and its four kept hooks removed, so the collection's hooks become `HooksAfterStop` |
| SyncForce.SyncForce.SyncMetadata | syncforce.js:171-179 | throws exactly without a login; otherwise registers a started metadata sync under `metadata` |
| SyncForce.SyncForce.RunSync | syncforce.js:185-191 | runs the registered sync, if any, without a callback |
| SyncForce.SyncForce.InvokeSobjectMethod | syncforce.js:284-297 | the call outcome as `CallOutcome`; a successful call with `triggerSync` runs the resource's sync, otherwise no sync changes |
| SyncForce.SyncForce.Find | syncforce.js:246-248 | the remote call's outcome, with no sync triggered |
| SyncForce.SyncForce.Retrieve | syncforce.js:251-254 | a malformed id throws without a call; otherwise the remote call's outcome |
| SyncForce.SyncForce.Create | syncforce.js:259-263 | malformed data throws without a call; otherwise the remote call's outcome, with no sync triggered |
| SyncForce.SyncForce.Update | syncforce.js:266-269 | data without a string `Id` throws without a call; otherwise the remote call's outcome, with no sync triggered |
| SyncForce.SyncForce.Upsert | syncforce.js:273-276 | data failing the intended validation throws without a call; otherwise the call, then a sync on success |
| SyncForce.SyncForce.Destroy | syncforce.js:279-282 | a malformed id throws without a call; otherwise the remote call's outcome, with no sync triggered |

## Left out

- Timers: `setInterval`/`clearInterval` are modelled as a flag and a count of intervals not cleared. The interval length (`interval * 60000`) and the timer callbacks are not modelled; a caller runs a sync when a timer would.
- The two-second delay of the subscription's handler and the streaming transport are left out; a message is handed to `ProcessMessage` directly. As written, `init` throws before it subscribes (see Findings); the sync's `start` is modelled with the intended `init`.
- Query paging (`autoFetch`, `maxFetch`) and the query stream itself are left out; the caller feeds records to `OnRecord`, then calls `OnQueryEnd` or `OnQueryError`.
- CollectionSync.DeletionWindow: the start of the day is computed in UTC (`(syncStart / Day) * Day`), not in the server's local time zone, because no time-zone data is modelled.
- CollectionSync.LatestTimestamp: a stored timestamp that is a string, a boolean or a date is ignored, where Mongo's sort order would place it above every number, because timestamps are modelled as numbers of milliseconds.
- Utility.CleanedRecord: an entry whose `records` is truthy but not an array is kept unchanged, where `.map` would throw.
- CollectionSync.WatermarkAfter: a timestamp that is not a number is not parsed as a date; the run's start is used instead, because timestamps are modelled as milliseconds.
- `jsforce.Date.toDateTimeLiteral` and `Date.prototype.toISOString` are uninterpreted; the model only passes their results along.
- Mongo `_id` generation and `direct` versus hooked writes are not distinguished; documents are keyed by the field used in the selector.
- Collection-hook dispatch is not modelled: the registrations are installed and removed, and the hook bodies are methods the caller invokes. `_onChildRemovedHook` only forwards to `OnChildRemoved`.
- Bus handlers are not run by the bus; it records deliveries, and a caller runs the modelled handler.
- Hooks.Hooks.OnInsert: a `before` hook that changes its argument in place and hands it back is modelled as handing back the unchanged record, since mutation of the record by a hook is not modelled; the aliasing itself (the payload is the record object, so the `after` hooks see the new `Id`) is modelled.
- User callbacks (hooks, transform, `onRemoved`, condition functions) are total functions: their exceptions and their mutation of shared objects, other than the transform's record, are not modelled.
- A transform that returns a truthy value that is not a record is not modelled.
- Metadata entries that are not objects are stored with their fields read as an empty record, not spread character by character.
- A related-list field that is neither missing nor an array is left unchanged, where Mongo would reject the push or the pull.
- The constructor of a lookup prepends `Id` and `Name` to the definition's own `parentFields` array; sharing that array between lookups, and the repeated prepends it would cause, is not modelled.
- The order within each group of lookups after the sort is the given order; a JavaScript engine may reorder within a group, since the comparator is not consistent.
- The `try/catch` around each record in the `record` handler and around `processDeletedRecords` in the deletion step are not modelled, because no modelled step throws there.
- `check`/`Match` failure messages are not modelled; every failure is one `Match.Error`. The `check` calls on `syncCollection`'s options are replaced by typed parameters. The `check`s inside `create` on `onInsert`'s payload always pass, since that payload is an object.
- `query`, `apex`, `setLogger` and all logging are not part of this model.
- `login` is modelled by the outcome of the remote login; the settings and the OAuth exchange are left out.
- LookupCollection.LookupCollection.OnChildSynced: does not state that the hook tables of the parent collections are unchanged.
- LookupCollection.LookupCollection.OnChildRemoved: does not state that the hook tables of the parent collections are unchanged.
- CollectionSync.CollectionSync.ProcessRecord: does not state that the collection's hook table is unchanged.

## Findings

| source | as written | input that shows it | evidently intended | confidence | as-written member | corrected member |
|---|---|---|---|---|---|---|
| lib/utility.js:14 | the nested cleaning reads `this.cleanSfRecord` in a module function, where `this` is undefined | a record with `Contacts: {records: [{Id: '003A'}]}` | nested query results are flattened to their cleaned records | not executed | Utility.CleanSfRecordAsWrittenThrows | Utility.CleanSfRecord |
| lib/Lookup.js:46 | `registerEvents` calls `sfSync.onSynced`, a method the singleton does not have | any lookup definition, when its sync starts | registration through `onReceived` for the parent's `inserted` and `updated` events; the lookup tests (lib/Lookup.tests.js:26, 32) mock `onSynced`, so they do not show it | not executed | Lookup.Lookup.RegisterEventsAsWritten | Lookup.Lookup.RegisterEvents |
| CollectionSync.js:54 | the lookups are built with three arguments, so the resource name is taken as the definitions and its `sort` is missing | any sync with `lookupDefinitions` | the two-argument call with the definitions | not executed | LookupCollection.ConstructAsWritten | LookupCollection.LookupCollection.constructor |
| syncforce.js:274 | the `Match.Where` predicate joins `check(...)`, which returns `undefined`, with `&&`, so it is never truthy | `upsert('Account', {Ext__c: 'A-1'}, 'Ext__c')` | accept an object whose external id field is set | not executed | SyncForce.UpsertCheckAsWrittenRejectsAll | SyncForce.UpsertCheck |
| lib/Subscription.js:23 | `delay(this.processMessage, 2000)` returns the timer that `setTimeout` gives, which has no `bind`, so `.bind(this)` throws a `TypeError` before `subscribe` runs | any sync with a `topic`, when it starts | subscribe with the handler delayed by two seconds and bound to the subscription | not executed | CollectionSync.SubscriptionInitAsWrittenThrows | CollectionSync.Subscription.Init |
