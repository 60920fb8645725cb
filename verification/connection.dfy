/** The session with the remote record store. The remote side itself is not
    modelled: each call is appended to a log and its reply is supplied by the
    caller, as the remote store would. */
module Connection {
  import opened Values

  datatype SobjectMethod = Find | Retrieve | Create | Update | Upsert | Destroy

  /** One `sobject(resource)[operation](...args)` call that reached the remote store. */
  datatype RemoteCall = RemoteCall(operation: SobjectMethod, resource: string, args: seq<Value>)

  /** The options kept by `login` for building connections later. */
  datatype ConnectionOptions = ConnectionOptions(instanceUrl: string, accessToken: string)

  const NotInitialized: Error := Error("Error", "", "Connection not initialized - call login first", false)

  /** What a remote call returns given the login state and the remote reply. */
  function CallOutcome(options: Option<ConnectionOptions>, reply: Result<Value>): (r: Result<Value>)
    ensures options.None? ==> r == Threw(NotInitialized)
    ensures options.Some? ==> r == reply
  {
    if options.None? then Threw(NotInitialized) else reply
  }

  /** The call log after a call: it reaches the remote store only after login. */
  function CallsAfter(options: Option<ConnectionOptions>, calls: seq<RemoteCall>, call: RemoteCall): (c: seq<RemoteCall>)
    ensures options.None? ==> c == calls
    ensures options.Some? ==> c == calls + [call]
  {
    if options.None? then calls else calls + [call]
  }

  /** A failed `check(...)` on a wrapper's arguments. The message text comes
      from the validation library and is not modelled. */
  const MatchError: Error := Error("Match.Error", "", "Match error", false)

  /** `Match.OneOf(String, [String])`. */
  predicate IsIdArgument(v: Value)
  {
    v.Str? || (v.Arr? && forall i :: 0 <= i < |v.items| ==> v.items[i].Str?)
  }

  /** `Match.OneOf(Object, [Object])`. */
  predicate IsDataArgument(v: Value)
  {
    v.Obj? || (v.Arr? && forall i :: 0 <= i < |v.items| ==> v.items[i].Obj?)
  }

  /** `Match.ObjectIncluding({Id: String})`. */
  predicate HasStringId(v: Value)
  {
    v.Obj? && "Id" in v.fields && v.fields["Id"].Str?
  }

  class Connection {
    /** `_connectionOptions`: `None` until a login succeeds. */
    var connectionOptions: Option<ConnectionOptions>
    var calls: seq<RemoteCall>

    constructor()
      ensures connectionOptions == None && calls == []
    {
      connectionOptions := None;
      calls := [];
    }

    /** `login(settings)`: `reply` is the outcome of the remote login. A failed
        login throws and keeps the previous options. */
    method Login(reply: Result<ConnectionOptions>) returns (r: Result<ConnectionOptions>)
      modifies this
      ensures r == reply
      ensures reply.Ok? ==> connectionOptions == Some(reply.value)
      ensures reply.Threw? ==> connectionOptions == old(connectionOptions)
      ensures calls == old(calls)
    {
      r := reply;
      if reply.Ok? {
        connectionOptions := Some(reply.value);
      }
    }

    /** `getConnection()`: throws until a login has succeeded. */
    function GetConnection(): (r: Result<ConnectionOptions>)
      reads this
      ensures r.Threw? <==> connectionOptions.None?
      ensures r.Threw? ==> r.error == NotInitialized
      ensures r.Ok? ==> Some(r.value) == connectionOptions
    {
      if connectionOptions.None? then Threw(NotInitialized) else Ok(connectionOptions.value)
    }

    /** The remote part of `_invokeSobjectMethod`: the connection guard, then
        the call, answered by `reply`. */
    method Invoke(operation: SobjectMethod, resource: string, args: seq<Value>, reply: Result<Value>) returns (r: Result<Value>)
      modifies this
      ensures r == CallOutcome(old(connectionOptions), reply)
      ensures calls == CallsAfter(old(connectionOptions), old(calls), RemoteCall(operation, resource, args))
      ensures connectionOptions == old(connectionOptions)
    {
      var session := GetConnection();
      if session.Threw? {
        r := Threw(session.error);
      } else {
        calls := calls + [RemoteCall(operation, resource, args)];
        r := reply;
      }
    }
  }
}
