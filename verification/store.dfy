/** The local document store: a collection of documents addressed by the
    value of one key field (the remote `Id`, or `fullName` for metadata),
    with the upsert, removal and hook registration the engine relies on. */
module Store {
  import opened Values

  /** Documents by key value. */
  type Docs = map<Value, Record>

  /** `upsert({keyField: key}, {$set: fields})`: the document with that key gets
      every field of `fields`; when there is none, one holding only the key
      field is created first. */
  function UpsertDocs(docs: Docs, keyField: string, key: Value, fields: Record): (d: Docs)
    ensures d.Keys == docs.Keys + {key}
    ensures forall k :: k in docs && k != key ==> d[k] == docs[k]
    ensures forall f :: f in fields ==> f in d[key] && d[key][f] == fields[f]
    ensures key in docs ==> forall f :: f in docs[key] && f !in fields ==> f in d[key] && d[key][f] == docs[key][f]
    ensures key in docs ==> d[key].Keys == docs[key].Keys + fields.Keys
    ensures key !in docs ==> d[key].Keys == fields.Keys + {keyField}
  {
    docs[key := (if key in docs then docs[key] else map[keyField := key]) + fields]
  }

  /** Repeating an upsert with the same arguments changes nothing more. */
  lemma UpsertDocsIdempotent(docs: Docs, keyField: string, key: Value, fields: Record)
    ensures UpsertDocs(UpsertDocs(docs, keyField, key, fields), keyField, key, fields)
         == UpsertDocs(docs, keyField, key, fields)
  {
    var once := UpsertDocs(docs, keyField, key, fields);
    assert once[key] + fields == once[key];
  }

  /** `remove({Id: {$in: ids}})`. */
  function RemoveDocs(docs: Docs, ids: seq<Value>): (d: Docs)
    ensures d.Keys == docs.Keys - set i | i in ids
    ensures forall k :: k in d ==> d[k] == docs[k]
  {
    map k | k in docs && k !in ids :: docs[k]
  }

  /** The number of documents `remove` reports: those whose key is listed. */
  function RemovedCount(docs: Docs, ids: seq<Value>): nat
  {
    |docs.Keys * set i | i in ids|
  }

  /** The number of documents a removal reports is exactly what the store lost. */
  lemma RemoveDocsCount(docs: Docs, ids: seq<Value>)
    ensures RemovedCount(docs, ids) + |RemoveDocs(docs, ids)| == |docs|
  {
    var gone := docs.Keys * set i | i in ids;
    var kept := RemoveDocs(docs, ids).Keys;
    assert docs.Keys == gone + kept;
    assert gone * kept == {};
    assert |RemoveDocs(docs, ids)| == |kept|;
  }

  datatype Timing = Before | After
  datatype Operation = Insert | Update | Remove | Upsert

  /** A registered collection hook; `serial` tells apart handles that were
      registered for the same callback at different times. */
  datatype Registration = Registration(timing: Timing, op: Operation, handler: Handler, serial: nat)

  class Collection {
    var docs: Docs
    /** The collection hooks currently installed. */
    var hooks: set<Registration>
    var nextSerial: nat

    ghost predicate Valid()
      reads this
    {
      forall r :: r in hooks ==> r.serial < nextSerial
    }

    constructor()
      ensures Valid()
      ensures docs == map[] && hooks == {}
    {
      docs := map[];
      hooks := {};
      nextSerial := 0;
    }

    /** `findOne({keyField: key})`. */
    function FindOne(key: Value): (r: Option<Record>)
      reads this
      ensures r.Some? <==> key in docs
      ensures r.Some? ==> r.value == docs[key]
    {
      if key in docs then Some(docs[key]) else None
    }

    /** `direct.upsert`: `insertedId` is set exactly when no document had the key. */
    method Upsert(keyField: string, key: Value, fields: Record) returns (insertedId: bool)
      modifies this
      ensures insertedId <==> key !in old(docs)
      ensures docs == UpsertDocs(old(docs), keyField, key, fields)
      ensures hooks == old(hooks) && nextSerial == old(nextSerial)
    {
      insertedId := key !in docs;
      docs := UpsertDocs(docs, keyField, key, fields);
    }

    /** `direct.remove({Id: {$in: ids}})`, returning the number removed. */
    method RemoveIds(ids: seq<Value>) returns (count: nat)
      modifies this
      ensures count == RemovedCount(old(docs), ids)
      ensures docs == RemoveDocs(old(docs), ids)
      ensures count + |docs| == |old(docs)|
      ensures hooks == old(hooks) && nextSerial == old(nextSerial)
    {
      count := RemovedCount(docs, ids);
      RemoveDocsCount(docs, ids);
      docs := RemoveDocs(docs, ids);
    }

    /** `collection.before.insert(handler)` and the like: installs a hook and
        returns its fresh handle. */
    method AddHook(timing: Timing, op: Operation, handler: Handler) returns (reg: Registration)
      requires Valid()
      modifies this
      ensures Valid()
      ensures reg == Registration(timing, op, handler, old(nextSerial))
      ensures reg !in old(hooks)
      ensures hooks == old(hooks) + {reg}
      ensures docs == old(docs) && nextSerial == old(nextSerial) + 1
    {
      reg := Registration(timing, op, handler, nextSerial);
      hooks := hooks + {reg};
      nextSerial := nextSerial + 1;
    }

    /** `handle.remove()`: a handle already removed is ignored. */
    method RemoveHook(reg: Registration)
      modifies this
      ensures hooks == old(hooks) - {reg}
      ensures docs == old(docs) && nextSerial == old(nextSerial)
    {
      hooks := hooks - {reg};
    }
  }
}
