/** The event bus of the engine: handlers registered per `eventType:resource`
    key, and the notifications that reach them after a record is synced. */
module Events {
  import opened Values

  /** `eventType` of `onReceived`: a single type or a list of them. */
  datatype EventTypes = One(eventType: string) | Many(eventTypes: seq<string>)

  function TypeList(t: EventTypes): (ts: seq<string>)
    ensures t.One? ==> ts == [t.eventType]
    ensures t.Many? ==> ts == t.eventTypes
  {
    match t
    case One(e) => [e]
    case Many(es) => es
  }

  /** The emitter key `eventType + ':' + resourceType`. */
  function EventKey(eventType: string, resourceType: string): (k: string)
    ensures |k| == |eventType| + 1 + |resourceType|
    ensures k[..|eventType|] == eventType && k[|eventType|] == ':'
  {
    eventType + ":" + resourceType
  }

  /** Event types never contain `:`, so a key names one event type and one
      resource. */
  lemma EventKeyInjective(e1: string, r1: string, e2: string, r2: string)
    requires ':' !in e1 && ':' !in e2
    requires EventKey(e1, r1) == EventKey(e2, r2)
    ensures e1 == e2 && r1 == r2
  {
    var k := EventKey(e1, r1);
    if |e1| != |e2| {
      assert false;
    }
    assert e1 == k[..|e1|] == e2;
    assert r1 == k[|e1| + 1..] == r2;
  }

  type Listeners = map<string, seq<Handler>>

  /** The handlers listening on `key`, in registration order. */
  function ListenersOf(l: Listeners, key: string): seq<Handler>
  {
    if key in l then l[key] else []
  }

  /** `emitter.on(key, h)`: appends. */
  function AddListener(l: Listeners, key: string, h: Handler): (l': Listeners)
    ensures ListenersOf(l', key) == ListenersOf(l, key) + [h]
    ensures forall k :: k != key ==> ListenersOf(l', k) == ListenersOf(l, k)
  {
    l[key := ListenersOf(l, key) + [h]]
  }

  /** `h` registered under `t:resource` for each `t` of `ts`, in order. */
  function AddAll(l: Listeners, ts: seq<string>, resource: string, h: Handler): Listeners
    decreases |ts|
  {
    if ts == [] then l
    else AddListener(AddAll(l, ts[..|ts| - 1], resource, h), EventKey(ts[|ts| - 1], resource), h)
  }

  /** How many of `ts` give `key` for `resource`. */
  function CountKey(ts: seq<string>, resource: string, key: string): nat
    decreases |ts|
  {
    if ts == [] then 0
    else CountKey(ts[..|ts| - 1], resource, key) + (if EventKey(ts[|ts| - 1], resource) == key then 1 else 0)
  }

  function Repeat(h: Handler, n: nat): (s: seq<Handler>)
    ensures |s| == n && forall i :: 0 <= i < n ==> s[i] == h
  {
    seq(n, _ => h)
  }

  /** Registering adds `h` to the end of a key's list once per type giving
      that key, and touches no other key. */
  lemma {:induction false} AddAllListeners(l: Listeners, ts: seq<string>, resource: string, h: Handler, key: string)
    ensures ListenersOf(AddAll(l, ts, resource, h), key) == ListenersOf(l, key) + Repeat(h, CountKey(ts, resource, key))
    decreases |ts|
  {
    if ts != [] {
      var init := ts[..|ts| - 1];
      AddAllListeners(l, init, resource, h, key);
      if EventKey(ts[|ts| - 1], resource) == key {
        assert Repeat(h, CountKey(init, resource, key)) + [h] == Repeat(h, CountKey(ts, resource, key));
      }
    }
  }

  /** For event types without `:`, the types giving `e:r` are the
      occurrences of `e`, and only under the registered resource. */
  lemma {:induction false} CountKeyIsOccurrences(ts: seq<string>, resource: string, e: string, r: string)
    requires forall i :: 0 <= i < |ts| ==> ':' !in ts[i]
    requires ':' !in e
    ensures CountKey(ts, resource, EventKey(e, r)) == if r == resource then multiset(ts)[e] else 0
    decreases |ts|
  {
    if ts != [] {
      var init := ts[..|ts| - 1];
      var last := ts[|ts| - 1];
      CountKeyIsOccurrences(init, resource, e, r);
      assert ts == init + [last];
      if EventKey(last, resource) == EventKey(e, r) {
        EventKeyInjective(last, resource, e, r);
      } else {
        assert !(last == e && resource == r);
      }
    }
  }

  /** One delivery of `emit(key, record, {eventType, resourceType})` to a handler. */
  datatype Delivery = Delivery(handler: Handler, record: Record, eventType: string, resourceType: string)

  function Deliveries(hs: seq<Handler>, record: Record, eventType: string, resourceType: string): (ds: seq<Delivery>)
    ensures |ds| == |hs|
    ensures forall i :: 0 <= i < |hs| ==> ds[i] == Delivery(hs[i], record, eventType, resourceType)
  {
    seq(|hs|, i requires 0 <= i < |hs| => Delivery(hs[i], record, eventType, resourceType))
  }

  /** One `_notifyReceived` call. */
  datatype Notice = Notice(eventType: string, resourceType: string, record: Record)

  /** The deliveries a run of notifications makes while the listeners stay `l`. */
  function Delivered(l: Listeners, ns: seq<Notice>): seq<Delivery>
    decreases |ns|
  {
    if ns == [] then []
    else
      var n := ns[|ns| - 1];
      Delivered(l, ns[..|ns| - 1]) + Deliveries(ListenersOf(l, EventKey(n.eventType, n.resourceType)), n.record, n.eventType, n.resourceType)
  }

  /** One more notification adds its own deliveries at the end. */
  lemma DeliveredSnoc(l: Listeners, ns: seq<Notice>, n: Notice)
    ensures Delivered(l, ns + [n])
         == Delivered(l, ns) + Deliveries(ListenersOf(l, EventKey(n.eventType, n.resourceType)), n.record, n.eventType, n.resourceType)
  {
    assert (ns + [n])[..|ns|] == ns;
  }

  /** The emitter behind `onReceived` and `_notifyReceived`: who listens on
      which key, and every delivery made so far. Handler bodies are not run
      here; a caller runs the modelled handler for each delivery. */
  class SyncEvents {
    var listeners: Listeners
    var deliveries: seq<Delivery>
    var notices: seq<Notice>

    constructor()
      ensures listeners == map[] && deliveries == [] && notices == []
    {
      listeners := map[];
      deliveries := [];
      notices := [];
    }

    /** Between the two states, exactly the notifications `ns` were made. */
    twostate predicate Notified(ns: seq<Notice>)
      reads this
    {
      && listeners == old(listeners)
      && notices == old(notices) + ns
      && deliveries == old(deliveries) + Delivered(listeners, ns)
    }

    /** `onReceived(eventType, resourceType, handler)`. */
    method OnReceived(eventType: EventTypes, resourceType: string, handler: Handler)
      modifies this
      ensures listeners == AddAll(old(listeners), TypeList(eventType), resourceType, handler)
      ensures deliveries == old(deliveries) && notices == old(notices)
    {
      var ts := TypeList(eventType);
      var i := 0;
      while i < |ts|
        invariant 0 <= i <= |ts|
        invariant listeners == AddAll(old(listeners), ts[..i], resourceType, handler)
        invariant deliveries == old(deliveries) && notices == old(notices)
      {
        assert ts[..i + 1][..i] == ts[..i];
        listeners := AddListener(listeners, EventKey(ts[i], resourceType), handler);
        i := i + 1;
      }
      assert ts[..|ts|] == ts;
    }

    /** `_notifyReceived(eventType, resourceType, record)`: every handler on
        the exact key gets the record, in registration order. */
    method NotifyReceived(eventType: string, resourceType: string, record: Record)
      modifies this
      ensures listeners == old(listeners)
      ensures notices == old(notices) + [Notice(eventType, resourceType, record)]
      ensures deliveries == old(deliveries)
        + Deliveries(ListenersOf(listeners, EventKey(eventType, resourceType)), record, eventType, resourceType)
      ensures Notified([Notice(eventType, resourceType, record)])
    {
      var hs := ListenersOf(listeners, EventKey(eventType, resourceType));
      deliveries := deliveries + Deliveries(hs, record, eventType, resourceType);
      notices := notices + [Notice(eventType, resourceType, record)];
    }

    /** `_notifyReceived` for each of `ns`, in order. */
    method NotifyEach(ns: seq<Notice>)
      modifies this
      ensures Notified(ns)
    {
      ghost var l := listeners;
      var i := 0;
      while i < |ns|
        invariant 0 <= i <= |ns|
        invariant listeners == l
        invariant notices == old(notices) + ns[..i]
        invariant deliveries == old(deliveries) + Delivered(l, ns[..i])
      {
        DeliveredSnoc(l, ns[..i], ns[i]);
        assert ns[..i + 1] == ns[..i] + [ns[i]];
        NotifyReceived(ns[i].eventType, ns[i].resourceType, ns[i].record);
        i := i + 1;
      }
      assert ns[..i] == ns;
    }
  }

  /** A handler registered by one `onReceived` call, and nowhere before,
      listens on `e:r` exactly when `e` is one of its types and `r` its
      resource, once per occurrence of `e`. */
  lemma ReceivedOnlyOnExactKey(l: Listeners, t: EventTypes, resource: string, h: Handler, e: string, r: string)
    requires forall k :: k in l ==> h !in l[k]
    requires forall i :: 0 <= i < |TypeList(t)| ==> ':' !in TypeList(t)[i]
    requires ':' !in e
    ensures var hs := ListenersOf(AddAll(l, TypeList(t), resource, h), EventKey(e, r));
            multiset(hs)[h] == if r == resource then multiset(TypeList(t))[e] else 0
  {
    var key := EventKey(e, r);
    AddAllListeners(l, TypeList(t), resource, h, key);
    CountKeyIsOccurrences(TypeList(t), resource, e, r);
    var n := CountKey(TypeList(t), resource, key);
    assert multiset(ListenersOf(l, key))[h] == 0;
    var rep := Repeat(h, n);
    assert multiset(rep)[h] == n by {
      RepeatCount(h, n);
    }
  }

  lemma {:induction false} RepeatCount(h: Handler, n: nat)
    ensures multiset(Repeat(h, n))[h] == n
  {
    if n > 0 {
      RepeatCount(h, n - 1);
      assert Repeat(h, n) == Repeat(h, n - 1) + [h];
    }
  }
}
