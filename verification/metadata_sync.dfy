/** The periodic copy of remote metadata definitions into a local
    collection, keyed by each definition's `fullName`. */
module MetadataSync {
  import opened Values
  import opened Store
  import Connection

  /** The counters `processResults` keeps. */
  datatype MetaStatus = MetaStatus(updated: nat, inserted: nat)

  /** One `metadata.read(metaType, fullNames)` issued. */
  datatype MetadataRead = MetadataRead(metaType: string, fullNames: seq<string>)

  predicate Nullish(v: Value)
  {
    v.Undefined? || v.Null?
  }

  /** The read's result as a list: a single definition is wrapped. */
  function ResultList(v: Value): (rs: seq<Value>)
    ensures v.Arr? ==> rs == v.items
    ensures !v.Arr? ==> rs == [v]
  {
    if v.Arr? then v.items else [v]
  }

  /** `meta.fullName`, the key a definition is stored under. */
  function MetaKey(meta: Value): Value
  {
    Get(AsRecord(meta), "fullName")
  }

  /** `{...meta, metaDataType}`: the definition's fields, tagged with its type. */
  function MetaFields(meta: Value, metaType: string): (f: Record)
    ensures f.Keys == AsRecord(meta).Keys + {"metaDataType"}
    ensures f["metaDataType"] == Str(metaType)
    ensures forall k :: k in AsRecord(meta) && k != "metaDataType" ==> f[k] == AsRecord(meta)[k]
  {
    AsRecord(meta)["metaDataType" := Str(metaType)]
  }

  /** The error reading `fullName` of a missing definition raises. */
  function ReadFullNameError(meta: Value): Error
  {
    TypeError("Cannot read properties of " + (if meta.Null? then "null" else "undefined") + " (reading 'fullName')")
  }

  /** The position of the first missing definition, `|results|` when there is none. */
  function FirstNullish(results: seq<Value>): (i: nat)
    ensures i <= |results|
    ensures forall j :: 0 <= j < i ==> !Nullish(results[j])
    ensures i < |results| ==> Nullish(results[i])
    decreases |results|
  {
    if results == [] then 0
    else if Nullish(results[0]) then 0
    else 1 + FirstNullish(results[1..])
  }

  /** One definition upserted by `fullName`, and the counter it bumps. */
  function UpsertOne(docs: Docs, status: MetaStatus, metaType: string, meta: Value): (res: (Docs, MetaStatus))
    ensures res.0 == UpsertDocs(docs, "fullName", MetaKey(meta), MetaFields(meta, metaType))
    ensures MetaKey(meta) in docs ==> res.1 == status.(updated := status.updated + 1) && |res.0| == |docs|
    ensures MetaKey(meta) !in docs ==> res.1 == status.(inserted := status.inserted + 1) && |res.0| == |docs| + 1
  {
    var key := MetaKey(meta);
    var d := UpsertDocs(docs, "fullName", key, MetaFields(meta, metaType));
    assert key in docs ==> d.Keys == docs.Keys;
    (d, if key in docs then status.(updated := status.updated + 1) else status.(inserted := status.inserted + 1))
  }

  /** The documents and counters after upserting each definition in turn. */
  function UpsertAll(docs: Docs, metaType: string, results: seq<Value>): (res: (Docs, MetaStatus))
    ensures res.1.inserted + res.1.updated == |results|
    ensures |res.0| == |docs| + res.1.inserted
    ensures docs.Keys <= res.0.Keys
    decreases |results|
  {
    if results == [] then (docs, MetaStatus(0, 0))
    else
      var prev := UpsertAll(docs, metaType, results[..|results| - 1]);
      UpsertOne(prev.0, prev.1, metaType, results[|results| - 1])
  }

  /** Upserting one more definition extends the fold by one step. */
  lemma UpsertAllStep(docs: Docs, metaType: string, results: seq<Value>, i: nat)
    requires i < |results|
    ensures var prev := UpsertAll(docs, metaType, results[..i]);
      UpsertAll(docs, metaType, results[..i + 1]) == UpsertOne(prev.0, prev.1, metaType, results[i])
  {
    assert results[..i + 1][..i] == results[..i];
  }

  /** Nothing but the existing keys and the definitions' `fullName`s is stored. */
  lemma {:induction false} UpsertAllKeys(docs: Docs, metaType: string, results: seq<Value>, k: Value)
    requires k in UpsertAll(docs, metaType, results).0
    ensures k in docs || exists j :: 0 <= j < |results| && MetaKey(results[j]) == k
    decreases |results|
  {
    if results != [] {
      var n := |results| - 1;
      var init := results[..n];
      if k != MetaKey(results[n]) {
        UpsertAllKeys(docs, metaType, init, k);
        if k !in docs {
          var j :| 0 <= j < |init| && MetaKey(init[j]) == k;
          assert results[j] == init[j];
        }
      }
    }
  }

  /** The document under `k` exists and is tagged with the metadata type. */
  predicate Tagged(d: Docs, k: Value, metaType: string)
  {
    k in d && "metaDataType" in d[k] && d[k]["metaDataType"] == Str(metaType)
  }

  /** One upsert tags its own document and keeps the tags of the others. */
  lemma UpsertOneTags(prev: Docs, metaType: string, meta: Value, k: Value)
    requires k == MetaKey(meta) || Tagged(prev, k, metaType)
    ensures Tagged(UpsertOne(prev, MetaStatus(0, 0), metaType, meta).0, k, metaType)
  {
    var f := MetaFields(meta, metaType);
    assert "metaDataType" in f;
  }

  /** Every definition read is stored under its `fullName`, tagged with the
      metadata type. */
  lemma {:induction false} UpsertAllTags(docs: Docs, metaType: string, results: seq<Value>, m: Value)
    requires m in results
    ensures Tagged(UpsertAll(docs, metaType, results).0, MetaKey(m), metaType)
    decreases |results|
  {
    var init := results[..|results| - 1];
    var meta := results[|results| - 1];
    if m != meta {
      var j :| 0 <= j < |results| && results[j] == m;
      assert j < |init| && init[j] == m;
      UpsertAllTags(docs, metaType, init, m);
    }
    UpsertOneTags(UpsertAll(docs, metaType, init).0, metaType, meta, MetaKey(m));
  }

  /** A document whose key no definition carries is left as it was. */
  lemma {:induction false} UpsertAllLeavesOthers(docs: Docs, metaType: string, results: seq<Value>, k: Value)
    requires k in docs && forall m :: m in results ==> MetaKey(m) != k
    ensures UpsertAll(docs, metaType, results).0[k] == docs[k]
    decreases |results|
  {
    if results != [] {
      var init := results[..|results| - 1];
      assert forall m :: m in init ==> m in results;
      UpsertAllLeavesOthers(docs, metaType, init, k);
    }
  }

  /** Upserting the same definitions again inserts nothing. */
  lemma {:induction false} UpsertAllAgainInsertsNothing(docs: Docs, metaType: string, results: seq<Value>)
    requires forall m :: m in results ==> MetaKey(m) in docs
    ensures UpsertAll(docs, metaType, results).1 == MetaStatus(|results|, 0)
    decreases |results|
  {
    if results != [] {
      var init := results[..|results| - 1];
      assert forall m :: m in init ==> m in results;
      UpsertAllAgainInsertsNothing(docs, metaType, init);
    }
  }

  class MetadataSync {
    const collection: Collection
    const metaType: string
    const fullNames: seq<string>
    /** The connection built from the login options when the sync was made. */
    const session: Connection.ConnectionOptions
    var intervalHandle: bool
    var activeIntervals: nat
    var running: bool
    var readLog: seq<MetadataRead>

    constructor(session: Connection.ConnectionOptions, collection: Collection, metaType: string, fullNames: seq<string>)
      ensures this.session == session && this.collection == collection
      ensures this.metaType == metaType && this.fullNames == fullNames
      ensures !intervalHandle && activeIntervals == 0 && !running && readLog == []
    {
      this.session := session;
      this.collection := collection;
      this.metaType := metaType;
      this.fullNames := fullNames;
      intervalHandle := false;
      activeIntervals := 0;
      running := false;
      readLog := [];
    }

    /** `processResults(result)`: upserts each definition by `fullName`;
        a missing definition throws, after the ones before it were stored. */
    method ProcessResults(results: seq<Value>) returns (r: Result<MetaStatus>)
      modifies collection
      ensures var n := FirstNullish(results);
        var u := UpsertAll(old(collection.docs), metaType, results[..n]);
        && collection.docs == u.0
        && r == if n < |results| then Threw(ReadFullNameError(results[n])) else Ok(u.1)
      ensures collection.hooks == old(collection.hooks) && collection.nextSerial == old(collection.nextSerial)
    {
      var status := MetaStatus(0, 0);
      var i := 0;
      while i < |results|
        invariant 0 <= i <= |results|
        invariant i <= FirstNullish(results)
        invariant (collection.docs, status) == UpsertAll(old(collection.docs), metaType, results[..i])
        invariant collection.hooks == old(collection.hooks) && collection.nextSerial == old(collection.nextSerial)
      {
        var meta := results[i];
        if Nullish(meta) {
          assert FirstNullish(results) == i;
          return Threw(ReadFullNameError(meta));
        }
        ghost var expected := UpsertOne(collection.docs, status, metaType, meta);
        UpsertAllStep(old(collection.docs), metaType, results, i);
        var inserted := collection.Upsert("fullName", MetaKey(meta), MetaFields(meta, metaType));
        status := if inserted then status.(inserted := status.inserted + 1) else status.(updated := status.updated + 1);
        assert (collection.docs, status) == expected;
        i := i + 1;
      }
      assert results[..i] == results;
      r := Ok(status);
    }

    /** The outcome a run logs for the read's `reply`, and the documents it leaves. */
    function ReadOutcome(docs: Docs, reply: Result<Value>): (o: (Docs, Result<MetaStatus>))
    {
      if reply.Threw? then (docs, Threw(reply.error))
      else
        var results := ResultList(reply.value);
        var n := FirstNullish(results);
        var u := UpsertAll(docs, metaType, results[..n]);
        (u.0, if n < |results| then Threw(ReadFullNameError(results[n])) else Ok(u.1))
    }

    /** What one run did: nothing while another is in progress; otherwise
        the read was issued, its definitions stored, and the guard cleared. */
    twostate predicate RunApplied(reply: Result<Value>)
      reads this, collection
    {
      if old(running) then running && readLog == old(readLog) && collection.docs == old(collection.docs)
      else
        && !running && readLog == old(readLog) + [MetadataRead(metaType, fullNames)]
        && collection.docs == ReadOutcome(old(collection.docs), reply).0
    }

    /** `run()`, with `reply` the outcome of the metadata read. The read is
        synchronous, so the guard is cleared again before `run` returns;
        `outcome` is what the run logs, `None` when the guard stopped it. */
    method Run(reply: Result<Value>) returns (outcome: Option<Result<MetaStatus>>)
      modifies this, collection
      ensures RunApplied(reply)
      ensures outcome == if old(running) then None else Some(ReadOutcome(old(collection.docs), reply).1)
      ensures intervalHandle == old(intervalHandle) && activeIntervals == old(activeIntervals)
      ensures collection.hooks == old(collection.hooks) && collection.nextSerial == old(collection.nextSerial)
    {
      if running {
        return None;
      }
      running := true;
      readLog := readLog + [MetadataRead(metaType, fullNames)];
      var status := StoreReply(reply);
      outcome := Some(status);
      running := false;
    }

    /** The read's `reply` handled: its error logged, or its definitions stored. */
    method StoreReply(reply: Result<Value>) returns (r: Result<MetaStatus>)
      modifies collection
      ensures (collection.docs, r) == ReadOutcome(old(collection.docs), reply)
      ensures collection.hooks == old(collection.hooks) && collection.nextSerial == old(collection.nextSerial)
    {
      if reply.Threw? {
        r := Threw(reply.error);
      } else {
        r := ProcessResults(ResultList(reply.value));
      }
    }

    /** `start()`: installs the interval once, then runs now. */
    method Start(reply: Result<Value>) returns (outcome: Option<Result<MetaStatus>>)
      modifies this, collection
      ensures intervalHandle
      ensures activeIntervals == if old(intervalHandle) then old(activeIntervals) else old(activeIntervals) + 1
      ensures RunApplied(reply)
      ensures outcome == if old(running) then None else Some(ReadOutcome(old(collection.docs), reply).1)
      ensures collection.hooks == old(collection.hooks) && collection.nextSerial == old(collection.nextSerial)
    {
      if !intervalHandle {
        intervalHandle := true;
        activeIntervals := activeIntervals + 1;
      }
      outcome := Run(reply);
    }

    /** `stop()`: clears the interval if one is installed. */
    method Stop()
      modifies this
      ensures !intervalHandle
      ensures activeIntervals == if old(intervalHandle) && old(activeIntervals) > 0 then old(activeIntervals) - 1 else old(activeIntervals)
      ensures running == old(running) && readLog == old(readLog)
    {
      if intervalHandle {
        intervalHandle := false;
        if activeIntervals > 0 {
          activeIntervals := activeIntervals - 1;
        }
      }
    }
  }
}
