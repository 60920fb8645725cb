/** Outbound replication: the collection hooks that send local inserts,
    updates and removals to the remote store, through the user's outbound
    hooks (`save`, `insert`, `update`, `remove`, each with a `before` and an
    `after` stage). */
module Hooks {
  import opened Values
  import opened Utility
  import Store
  import opened Connection

  /** What a user's outbound hook function returned: `false`, another falsy
      value, the very object it was handed, or some other record. */
  datatype HookReturn = ReturnedFalse | ReturnedFalsy | ReturnedInput | ReturnedRecord(record: Record)

  /** An outbound hook function; its argument is `None` when the value
      handed to it is `false`. */
  type HookFn = Option<Record> -> HookReturn

  datatype Stage = BeforeStage | AfterStage

  /** One entry of `outboundHooks`: `{before, after}`, or a bare function. */
  datatype OperationHooks = Stages(before: Option<HookFn>, after: Option<HookFn>) | Bare(fn: HookFn)

  /** `outboundHooks` after the defaults `{}` are filled in. */
  datatype OutboundHooks = OutboundHooks(save: OperationHooks, insert: OperationHooks, update: OperationHooks, remove: OperationHooks)

  const NoHooks: OperationHooks := Stages(None, None)

  /** The hook `_runOutboundHook` calls for a stage: a bare function is the
      `before` hook only. */
  function SelectHook(hooks: OperationHooks, stage: Stage): (f: Option<HookFn>)
    ensures hooks.Bare? ==> (f.Some? <==> stage == BeforeStage)
    ensures hooks.Bare? && f.Some? ==> f.value == hooks.fn
  {
    match hooks
    case Bare(fn) => if stage == BeforeStage then Some(fn) else None
    case Stages(before, after) => if stage == BeforeStage then before else after
  }

  /** The outcome of `_runOutboundHook`: `false`, the very record it was
      given, or the record the hook returned. */
  datatype HookResult = Cancelled | Kept | Replaced(record: Record)

  /** The value `_runOutboundHook` returns for `input`. */
  function Apply(r: HookResult, input: Option<Record>): Option<Record>
  {
    match r
    case Cancelled => None
    case Kept => input
    case Replaced(x) => Some(x)
  }

  /** `_runOutboundHook(operation, stage, record)`. */
  function RunOutboundHook(hooks: OperationHooks, stage: Stage, input: Option<Record>): HookResult
  {
    match SelectHook(hooks, stage)
    case None => Kept
    case Some(f) =>
      match f(input)
      case ReturnedFalse => Cancelled
      case ReturnedFalsy => Kept
      case ReturnedInput => if input.None? then Cancelled else Kept
      case ReturnedRecord(x) => Replaced(x)
  }

  /** Only an explicit `false` from a hook yields `false`; with no hook, a
      falsy result or the hook's own argument, the input object itself comes
      back; another record result is returned. */
  lemma RunOutboundHookDecision(hooks: OperationHooks, stage: Stage, record: Record)
    ensures var v := Apply(RunOutboundHook(hooks, stage, Some(record)), Some(record));
      && (v.None? <==> SelectHook(hooks, stage).Some? && SelectHook(hooks, stage).value(Some(record)) == ReturnedFalse)
      && (SelectHook(hooks, stage).None? ==> v == Some(record))
      && (SelectHook(hooks, stage).Some? && SelectHook(hooks, stage).value(Some(record)).ReturnedFalsy? ==> v == Some(record))
      && (SelectHook(hooks, stage).Some? && SelectHook(hooks, stage).value(Some(record)).ReturnedInput? ==>
            RunOutboundHook(hooks, stage, Some(record)) == Kept)
      && (SelectHook(hooks, stage).Some? && SelectHook(hooks, stage).value(Some(record)).ReturnedRecord? ==>
            v == Some(SelectHook(hooks, stage).value(Some(record)).record))
  {
  }

  /** A bare function never runs as an `after` hook. */
  lemma BareIsBeforeOnly(fn: HookFn, input: Option<Record>)
    ensures RunOutboundHook(Bare(fn), AfterStage, input) == Kept
    ensures RunOutboundHook(Bare(fn), BeforeStage, input) != Kept ==> fn(input) != ReturnedFalsy
  {
  }

  /** The `before` stages of two operations chained with `&&`: the first
      `false` stops the chain. `Kept` means both handed back the record
      itself. */
  function BeforeChain(first: OperationHooks, second: OperationHooks, record: Record): (r: HookResult)
    ensures r == Cancelled <==>
      || RunOutboundHook(first, BeforeStage, Some(record)) == Cancelled
      || RunOutboundHook(second, BeforeStage, Apply(RunOutboundHook(first, BeforeStage, Some(record)), Some(record))) == Cancelled
    ensures r == Kept <==>
      RunOutboundHook(first, BeforeStage, Some(record)) == Kept && RunOutboundHook(second, BeforeStage, Some(record)) == Kept
    ensures r.Replaced? ==>
      var v1 := Apply(RunOutboundHook(first, BeforeStage, Some(record)), Some(record));
      Apply(r, Some(record)) == Apply(RunOutboundHook(second, BeforeStage, v1), v1)
  {
    var r1 := RunOutboundHook(first, BeforeStage, Some(record));
    if r1 == Cancelled then Cancelled
    else
      var r2 := RunOutboundHook(second, BeforeStage, Apply(r1, Some(record)));
      if r2 == Kept then r1 else r2
  }

  /** The `after` stages of two operations, run one after the other with no
      short cut: the second gets whatever the first returned, `false`
      included. */
  function AfterChain(first: OperationHooks, second: OperationHooks, record: Record): Option<Record>
  {
    var m1 := Apply(RunOutboundHook(first, AfterStage, Some(record)), Some(record));
    Apply(RunOutboundHook(second, AfterStage, m1), m1)
  }

  /** The value a collection hook returns; only `false` cancels the local operation. */
  datatype Verdict = VFalse | VTrue | VUndefined | VRecord(record: Record)

  function VerdictOf(v: Option<Record>): Verdict
  {
    if v.None? then VFalse else VRecord(v.value)
  }

  /** `_errorHandling`: the same error is rethrown, with a `sanitizedError`
      attached unless it is a Meteor error. */
  function ErrorHandling(e: Error): (r: Error)
    ensures r.errorType == e.errorType && r.errorCode == e.errorCode && r.message == e.message
    ensures r.sanitized <==> e.sanitized || e.errorType != "Meteor.Error"
  {
    if e.errorType != "Meteor.Error" then e.(sanitized := true) else e
  }

  const EntityIsDeleted: string := "ENTITY_IS_DELETED"

  const UpsertNotImplemented: Error := Error("Meteor.Error", "syncforce.notimplemented", "Upsert not implemented", false)

  /** `onUpsert`: a local upsert is always refused. */
  function OnUpsert(selector: Record, modifier: Record): (r: Result<Verdict>)
    ensures r.Threw? && r.error.errorType == "Meteor.Error" && r.error.errorCode == "syncforce.notimplemented"
    ensures ErrorHandling(r.error) == r.error
  {
    Threw(UpsertNotImplemented)
  }

  /** The record sent to the remote store by `onInsert`, if any. */
  function InsertPayload(hooks: OutboundHooks, record: Record): Option<Record>
  {
    Apply(BeforeChain(hooks.save, hooks.insert, record), Some(record))
  }

  /** The `$set` payload sent by `onUpdate` before hooks run, `Id` excluded. */
  function UpdateFields(modifier: Record): Record
  {
    RemoveNonSfKeys(AsRecord(Get(modifier, "$set")))
  }

  class Hooks {
    const collection: Store.Collection
    const connection: Connection
    const resource: string
    const outboundHooks: OutboundHooks
    /** The handles of the installed collection hooks. */
    var collectionHooks: seq<Store.Registration>

    constructor(connection: Connection, collection: Store.Collection, resource: string, outboundHooks: OutboundHooks)
      ensures this.connection == connection && this.collection == collection
      ensures this.resource == resource && this.outboundHooks == outboundHooks
      ensures collectionHooks == []
    {
      this.connection := connection;
      this.collection := collection;
      this.resource := resource;
      this.outboundHooks := outboundHooks;
      collectionHooks := [];
    }

    /** `init`: installs the four `before` hooks and keeps their handles;
        handles kept by an earlier `init` are dropped, not removed. */
    method Init()
      requires collection.Valid()
      modifies this, collection
      ensures collection.Valid()
      ensures |collectionHooks| == 4
      ensures collectionHooks[0].op == Store.Insert && collectionHooks[1].op == Store.Update
      ensures collectionHooks[2].op == Store.Remove && collectionHooks[3].op == Store.Upsert
      ensures forall i :: 0 <= i < 4 ==> collectionHooks[i].timing == Store.Before && collectionHooks[i] !in old(collection.hooks)
      ensures collection.hooks == old(collection.hooks) + set r | r in collectionHooks
      ensures collection.nextSerial == old(collection.nextSerial) + 4
      ensures collection.docs == old(collection.docs)
    {
      var ins := collection.AddHook(Store.Before, Store.Insert, Handler(this, "onInsert"));
      var upd := collection.AddHook(Store.Before, Store.Update, Handler(this, "onUpdate"));
      var rem := collection.AddHook(Store.Before, Store.Remove, Handler(this, "onRemove"));
      var ups := collection.AddHook(Store.Before, Store.Upsert, Handler(this, "onUpsert"));
      collectionHooks := [ins, upd, rem, ups];
    }

    /** `deinit`: removes every installed hook whose handle is kept. The
        handles stay in `collectionHooks`, so a second call removes nothing more. */
    method Deinit()
      modifies collection
      ensures collection.hooks == old(collection.hooks) - set r | r in collectionHooks
      ensures collection.docs == old(collection.docs) && collection.nextSerial == old(collection.nextSerial)
    {
      var i := 0;
      while i < |collectionHooks|
        invariant 0 <= i <= |collectionHooks|
        invariant collection.hooks == old(collection.hooks) - set r | r in collectionHooks[..i]
        invariant collection.docs == old(collection.docs) && collection.nextSerial == old(collection.nextSerial)
      {
        collection.RemoveHook(collectionHooks[i]);
        assert collectionHooks[..i + 1] == collectionHooks[..i] + [collectionHooks[i]];
        i := i + 1;
      }
      assert collectionHooks[..i] == collectionHooks;
    }

    /** `onInsert(userId, record)`: `reply` is the remote answer to `create`,
        the new remote id; `local` is the record as the local insert sees it. */
    method OnInsert(record: Record, reply: Result<Value>) returns (r: Result<Verdict>, local: Record)
      modifies connection
      ensures connection.connectionOptions == old(connection.connectionOptions)
      ensures InsertPayload(outboundHooks, record).None? ==>
        r == Ok(VFalse) && local == record && connection.calls == old(connection.calls)
      ensures InsertPayload(outboundHooks, record).Some? ==>
        var call := RemoteCall(Create, resource, [Obj(RemoveNonSfKeys(InsertPayload(outboundHooks, record).value))]);
        connection.calls == CallsAfter(old(connection.connectionOptions), old(connection.calls), call)
      ensures InsertPayload(outboundHooks, record).Some? ==>
        match CallOutcome(old(connection.connectionOptions), reply)
        case Threw(e) => r == Threw(ErrorHandling(e)) && local == record
        case Ok(id) =>
          && local == record["Id" := id]
          && var sent := if BeforeChain(outboundHooks.save, outboundHooks.insert, record) == Kept
                         then local else InsertPayload(outboundHooks, record).value;
             r == Ok(VerdictOf(AfterChain(outboundHooks.save, outboundHooks.insert, sent)))
    {
      local := record;
      var before := BeforeChain(outboundHooks.save, outboundHooks.insert, record);
      if before == Cancelled {
        return Ok(VFalse), local;
      }
      var payload := Apply(before, Some(record)).value;
      var ret := connection.Invoke(Create, resource, [Obj(RemoveNonSfKeys(payload))], reply);
      if ret.Threw? {
        return Threw(ErrorHandling(ret.error)), local;
      }
      local := local["Id" := ret.value];
      // the payload is the record object itself unless a hook replaced it
      var sent := if before == Kept then local else payload;
      r := Ok(VerdictOf(AfterChain(outboundHooks.save, outboundHooks.insert, sent)));
    }

    /** `onUpdate(userId, record, fieldNames, modifier)`: `reply` is the
        remote answer to `update`, which first checks that the payload
        carries a string `Id` and throws a `Match.Error` before any call
        otherwise. */
    method OnUpdate(record: Record, modifier: Record, reply: Result<Value>) returns (r: Result<Verdict>)
      modifies connection
      ensures connection.connectionOptions == old(connection.connectionOptions)
      ensures !(Truthy(IdOf(record)) && Truthy(Get(modifier, "$set"))) ==>
        r == Ok(VUndefined) && connection.calls == old(connection.calls)
      ensures Truthy(IdOf(record)) && Truthy(Get(modifier, "$set")) && |UpdateFields(modifier)| == 0 ==>
        r == Ok(VTrue) && connection.calls == old(connection.calls)
      ensures Truthy(IdOf(record)) && Truthy(Get(modifier, "$set")) && |UpdateFields(modifier)| > 0 ==>
        var before := BeforeChain(outboundHooks.save, outboundHooks.update, UpdateFields(modifier));
        && (before == Cancelled ==> r == Ok(VFalse) && connection.calls == old(connection.calls))
        && (before != Cancelled ==>
              var payload := Apply(before, Some(UpdateFields(modifier))).value["Id" := IdOf(record)];
              && (!HasStringId(Obj(payload)) ==>
                    r == Threw(ErrorHandling(MatchError)) && connection.calls == old(connection.calls))
              && (HasStringId(Obj(payload)) ==>
                    && connection.calls == CallsAfter(old(connection.connectionOptions), old(connection.calls),
                                                      RemoteCall(Update, resource, [Obj(payload)]))
                    && r == match CallOutcome(old(connection.connectionOptions), reply)
                            case Threw(e) => Threw(ErrorHandling(e))
                            case Ok(_) => Ok(VUndefined)))
    {
      if !(Truthy(IdOf(record)) && Truthy(Get(modifier, "$set"))) {
        return Ok(VUndefined);
      }
      var fields := UpdateFields(modifier);
      if |fields| == 0 {
        return Ok(VTrue);
      }
      var before := BeforeChain(outboundHooks.save, outboundHooks.update, fields);
      if before == Cancelled {
        return Ok(VFalse);
      }
      var payload := Apply(before, Some(fields)).value["Id" := IdOf(record)];
      if !HasStringId(Obj(payload)) {
        return Threw(ErrorHandling(MatchError));
      }
      var ret := connection.Invoke(Update, resource, [Obj(payload)], reply);
      if ret.Threw? {
        return Threw(ErrorHandling(ret.error));
      }
      r := Ok(VUndefined);
    }

    /** `onRemove(userId, record)`: `reply` is the remote answer to
        `destroy`, which first checks that the id is a string or a list of
        strings; its `Match.Error` is not `ENTITY_IS_DELETED`, so it is
        rethrown. */
    method OnRemove(record: Record, reply: Result<Value>) returns (r: Result<Verdict>)
      modifies connection
      ensures connection.connectionOptions == old(connection.connectionOptions)
      ensures !Truthy(IdOf(record)) ==> r == Ok(VUndefined) && connection.calls == old(connection.calls)
      ensures Truthy(IdOf(record)) && RunOutboundHook(outboundHooks.remove, BeforeStage, Some(record)) == Cancelled ==>
        r == Ok(VFalse) && connection.calls == old(connection.calls)
      ensures Truthy(IdOf(record)) && RunOutboundHook(outboundHooks.remove, BeforeStage, Some(record)) != Cancelled
              && !IsIdArgument(IdOf(record)) ==>
        r == Threw(ErrorHandling(MatchError)) && connection.calls == old(connection.calls)
      ensures Truthy(IdOf(record)) && RunOutboundHook(outboundHooks.remove, BeforeStage, Some(record)) != Cancelled
              && IsIdArgument(IdOf(record)) ==>
        && connection.calls == CallsAfter(old(connection.connectionOptions), old(connection.calls),
                                          RemoteCall(Destroy, resource, [IdOf(record)]))
        && r == match CallOutcome(old(connection.connectionOptions), reply)
                case Threw(e) => if e.errorCode == EntityIsDeleted then Ok(VUndefined) else Threw(ErrorHandling(e))
                case Ok(_) => Ok(VUndefined)
    {
      if !Truthy(IdOf(record)) {
        return Ok(VUndefined);
      }
      if Apply(RunOutboundHook(outboundHooks.remove, BeforeStage, Some(record)), Some(record)).None? {
        return Ok(VFalse);
      }
      if !IsIdArgument(IdOf(record)) {
        return Threw(ErrorHandling(MatchError));
      }
      var ret := connection.Invoke(Destroy, resource, [IdOf(record)], reply);
      if ret.Threw? && ret.error.errorCode != EntityIsDeleted {
        return Threw(ErrorHandling(ret.error));
      }
      r := Ok(VUndefined);
    }
  }

  /** With no outbound hooks, `onInsert` sends the record itself, stripped. */
  lemma InsertWithoutHooksSendsRecord(record: Record)
    ensures InsertPayload(OutboundHooks(NoHooks, NoHooks, NoHooks, NoHooks), record) == Some(record)
  {
  }

  /** `before` hooks that hand back the object they were given keep the
      record itself as `onInsert`'s payload, so the `after` hooks see the
      `Id` written onto it once the remote store answers. */
  lemma HooksReturningTheirArgumentKeepRecord(hooks: OutboundHooks, record: Record)
    requires SelectHook(hooks.save, BeforeStage).Some? && SelectHook(hooks.save, BeforeStage).value(Some(record)) == ReturnedInput
    requires SelectHook(hooks.insert, BeforeStage).Some? && SelectHook(hooks.insert, BeforeStage).value(Some(record)) == ReturnedInput
    ensures BeforeChain(hooks.save, hooks.insert, record) == Kept
    ensures InsertPayload(hooks, record) == Some(record)
  {
  }
}
