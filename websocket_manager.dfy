/**
 * `WebSocketManager` of tentacle_preview_static/js/websocket.js: a
 * connection flag, a registry of callbacks under three fixed event names,
 * and the connection badge. Callbacks are opaque: each is known by an
 * identity, and invoking one is recorded with the data it received.
 */
module WebSocketManagerModel {
  import opened Wrappers
  import opened JsValue

  /** The identity of a registered callback. */
  type Callback = nat

  /** One call `cb(data)` made by `trigger`. */
  datatype Invocation = Invocation(callback: Callback, data: Json)

  /** What the manager asks of Socket.IO. */
  datatype Message = OpenSocket | CloseSocket | Emit(event: string, data: Json)

  /** The own keys of `this.callbacks`. */
  const EventNames: set<string> := {"status_update", "logs_update", "connection_change"}

  /**
   * Keys that `this.callbacks[event]` finds on `Object.prototype`: the value
   * is truthy but has neither `push` nor `forEach`, so `on` and `trigger`
   * throw a TypeError for them.
   */
  const InheritedNames: set<string> := {
    "constructor", "__defineGetter__", "__defineSetter__", "hasOwnProperty",
    "__lookupGetter__", "__lookupSetter__", "isPrototypeOf", "propertyIsEnumerable",
    "toString", "valueOf", "__proto__", "toLocaleString"}

  /** The registry of a fresh manager: every event with no callback. */
  const EmptyRegistry: map<string, seq<Callback>> :=
    map["status_update" := [], "logs_update" := [], "connection_change" := []]

  /** `on(event, cb)` on the registry: appended under a known event, ignored otherwise. */
  function Register(callbacks: map<string, seq<Callback>>, event: string, cb: Callback): map<string, seq<Callback>> {
    if event in callbacks then callbacks[event := callbacks[event] + [cb]] else callbacks
  }

  /** The calls `trigger(event, data)` makes: every callback of the event, in registration order. */
  function Dispatch(callbacks: map<string, seq<Callback>>, event: string, data: Json): (calls: seq<Invocation>)
    ensures event !in callbacks ==> calls == []
    ensures event in callbacks ==> |calls| == |callbacks[event]|
    ensures event in callbacks ==> forall i :: 0 <= i < |calls| ==> calls[i] == Invocation(callbacks[event][i], data)
  {
    if event !in callbacks then []
    else seq(|callbacks[event]|, i requires 0 <= i < |callbacks[event]| => Invocation(callbacks[event][i], data))
  }

  /** Registering keeps the key set: no event name is ever added or removed. */
  lemma RegisterKeepsKeys(callbacks: map<string, seq<Callback>>, event: string, cb: Callback)
    ensures Register(callbacks, event, cb).Keys == callbacks.Keys
  {
  }

  /**
   * After `on(event, cb)` a trigger of that event calls everything it
   * called before and then `cb`; every other event calls what it called
   * before; an unknown event calls nothing, before or after.
   */
  lemma RegisterThenDispatch(callbacks: map<string, seq<Callback>>, event: string, cb: Callback, other: string, data: Json)
    ensures event in callbacks ==>
      Dispatch(Register(callbacks, event, cb), event, data) == Dispatch(callbacks, event, data) + [Invocation(cb, data)]
    ensures other != event ==> Dispatch(Register(callbacks, event, cb), other, data) == Dispatch(callbacks, other, data)
    ensures event !in callbacks ==> Register(callbacks, event, cb) == callbacks && Dispatch(callbacks, event, data) == []
  {
    if event in callbacks {
      var before := Dispatch(callbacks, event, data);
      var after := Dispatch(Register(callbacks, event, cb), event, data);
      assert |after| == |before| + 1;
      forall i | 0 <= i < |after|
        ensures after[i] == (before + [Invocation(cb, data)])[i]
      {
        if i < |before| {
          assert Register(callbacks, event, cb)[event][i] == callbacks[event][i];
        }
      }
    }
  }

  /** The `#connection-status` badge: its class and its markup. */
  datatype Indicator = Indicator(className: string, html: string)

  const OnlineClass := "badge bg-success online"
  const OfflineClass := "badge bg-secondary offline"

  /** `updateConnectionStatus(connected)`: the green badge exactly when connected. */
  function IndicatorFor(connected: bool): (r: Indicator)
    ensures r.className == OnlineClass <==> connected
    ensures r.className == OfflineClass <==> !connected
  {
    if connected then Indicator(OnlineClass, "<i class=\"bi bi-circle-fill\"></i> Online")
    else Indicator(OfflineClass, "<i class=\"bi bi-circle-fill\"></i> Offline")
  }

  /** `{connected: c}`, the data of a `connection_change` trigger. */
  function ConnectionChange(connected: bool): Json {
    Obj(map["connected" := Bool(connected)])
  }

  class WebSocketManager {
    var hasSocket: bool                          // `this.socket !== null`
    var isConnected: bool                        // `this.isConnected`
    var callbacks: map<string, seq<Callback>>    // `this.callbacks`
    var invoked: seq<Invocation>                 // every callback call so far, oldest first
    var sent: seq<Message>                       // every request to Socket.IO so far, oldest first
    const hasStatusElement: bool                 // the page has `#connection-status`
    var indicator: Option<Indicator>             // what the manager last wrote there, if anything

    /**
     * The registry always has exactly its three event names, the connected
     * flag implies a socket, and once the badge has been written it shows
     * the current connection state.
     */
    ghost predicate Valid()
      reads this
    {
      callbacks.Keys == EventNames &&
      (isConnected ==> hasSocket) &&
      (indicator.Some? ==> hasStatusElement && indicator.value == IndicatorFor(isConnected))
    }

    constructor(statusElement: bool)
      ensures Valid()
      ensures !hasSocket && !isConnected && callbacks == EmptyRegistry
      ensures invoked == [] && sent == [] && hasStatusElement == statusElement && indicator == None
    {
      hasSocket := false;
      isConnected := false;
      callbacks := EmptyRegistry;
      invoked := [];
      sent := [];
      hasStatusElement := statusElement;
      indicator := None;
    }

    /** `connect()`: a new socket with its five handlers; its events arrive as the `On…` methods below. */
    method Connect()
      requires Valid()
      modifies this
      ensures Valid()
      ensures hasSocket && sent == old(sent) + [OpenSocket]
      ensures isConnected == old(isConnected) && callbacks == old(callbacks)
      ensures invoked == old(invoked) && indicator == old(indicator)
    {
      hasSocket := true;
      sent := sent + [OpenSocket];
    }

    /** `send(event, data)`: emitted only on a connected socket. */
    method Send(event: string, data: Json)
      requires Valid()
      modifies this
      ensures Valid()
      ensures isConnected && hasSocket ==> sent == old(sent) + [Emit(event, data)]
      ensures !(isConnected && hasSocket) ==> sent == old(sent)
      ensures hasSocket == old(hasSocket) && isConnected == old(isConnected) && callbacks == old(callbacks)
      ensures invoked == old(invoked) && indicator == old(indicator)
    {
      if isConnected && hasSocket {
        sent := sent + [Emit(event, data)];
      }
    }

    /**
     * `on(event, cb)`: the callback joins the end of a known event's list;
     * an unknown name changes nothing, and an inherited name throws.
     */
    method On(event: string, cb: Callback) returns (raised: bool)
      requires Valid()
      modifies this
      ensures Valid()
      ensures raised <==> event in InheritedNames
      ensures callbacks == Register(old(callbacks), event, cb)
      ensures event in EventNames ==> callbacks[event] == old(callbacks[event]) + [cb]
      ensures forall e :: e in EventNames && e != event ==> callbacks[e] == old(callbacks[e])
      ensures hasSocket == old(hasSocket) && isConnected == old(isConnected)
      ensures invoked == old(invoked) && sent == old(sent) && indicator == old(indicator)
    {
      raised := false;
      if event in callbacks {
        callbacks := callbacks[event := callbacks[event] + [cb]];
      } else if event in InheritedNames {
        raised := true;
      }
    }

    /**
     * `trigger(event, data)`: each callback of the event is called with
     * `data`, one at a time in registration order; an unknown name calls
     * nothing, and an inherited name throws.
     */
    method Trigger(event: string, data: Json) returns (raised: bool)
      requires callbacks.Keys == EventNames
      modifies this
      ensures raised <==> event in InheritedNames
      ensures invoked == old(invoked) + Dispatch(callbacks, event, data)
      ensures hasSocket == old(hasSocket) && isConnected == old(isConnected) && callbacks == old(callbacks)
      ensures sent == old(sent) && indicator == old(indicator)
    {
      raised := false;
      if event !in callbacks {
        raised := event in InheritedNames;
        return;
      }
      var list := callbacks[event];
      var k := 0;
      while k < |list|
        invariant k <= |list| == |Dispatch(callbacks, event, data)|
        invariant event in callbacks && list == callbacks[event]
        invariant invoked == old(invoked) + Dispatch(callbacks, event, data)[..k]
        invariant hasSocket == old(hasSocket) && isConnected == old(isConnected) && callbacks == old(callbacks)
        invariant sent == old(sent) && indicator == old(indicator)
      {
        assert Dispatch(callbacks, event, data)[..k + 1] == Dispatch(callbacks, event, data)[..k] + [Invocation(list[k], data)];
        invoked := invoked + [Invocation(list[k], data)];
        k := k + 1;
      }
      assert Dispatch(callbacks, event, data)[..k] == Dispatch(callbacks, event, data);
    }

    /** `updateConnectionStatus(connected)`, when the page has the badge. */
    method UpdateConnectionStatus(connected: bool)
      requires callbacks.Keys == EventNames && (isConnected ==> hasSocket)
      requires connected == isConnected
      requires indicator.Some? ==> hasStatusElement
      modifies this
      ensures Valid()
      ensures hasStatusElement ==> indicator == Some(IndicatorFor(connected))
      ensures !hasStatusElement ==> indicator == old(indicator)
      ensures hasSocket == old(hasSocket) && isConnected == old(isConnected) && callbacks == old(callbacks)
      ensures invoked == old(invoked) && sent == old(sent)
    {
      if hasStatusElement {
        indicator := Some(IndicatorFor(connected));
      }
    }

    /** The socket's `connect` event: connected, `connection_change` with `{connected: true}`, green badge. */
    method OnConnect()
      requires Valid()
      requires hasSocket
      modifies this
      ensures Valid()
      ensures isConnected
      ensures invoked == old(invoked) + Dispatch(old(callbacks), "connection_change", ConnectionChange(true))
      ensures hasStatusElement ==> indicator == Some(IndicatorFor(true))
      ensures hasSocket == old(hasSocket) && callbacks == old(callbacks) && sent == old(sent)
    {
      isConnected := true;
      var _ := Trigger("connection_change", ConnectionChange(true));
      UpdateConnectionStatus(true);
    }

    /** The socket's `disconnect` event: not connected, `connection_change` with `{connected: false}`, grey badge. */
    method OnDisconnect()
      requires Valid()
      modifies this
      ensures Valid()
      ensures !isConnected
      ensures invoked == old(invoked) + Dispatch(old(callbacks), "connection_change", ConnectionChange(false))
      ensures hasStatusElement ==> indicator == Some(IndicatorFor(false))
      ensures hasSocket == old(hasSocket) && callbacks == old(callbacks) && sent == old(sent)
    {
      isConnected := false;
      var _ := Trigger("connection_change", ConnectionChange(false));
      UpdateConnectionStatus(false);
    }

    /** The socket's `status_update` event, passed on to the registered callbacks. */
    method OnStatusUpdate(data: Json)
      requires Valid()
      modifies this
      ensures Valid()
      ensures invoked == old(invoked) + Dispatch(callbacks, "status_update", data)
      ensures hasSocket == old(hasSocket) && isConnected == old(isConnected) && callbacks == old(callbacks)
      ensures sent == old(sent) && indicator == old(indicator)
    {
      var _ := Trigger("status_update", data);
    }

    /** The socket's `logs_update` event, passed on to the registered callbacks. */
    method OnLogsUpdate(data: Json)
      requires Valid()
      modifies this
      ensures Valid()
      ensures invoked == old(invoked) + Dispatch(callbacks, "logs_update", data)
      ensures hasSocket == old(hasSocket) && isConnected == old(isConnected) && callbacks == old(callbacks)
      ensures sent == old(sent) && indicator == old(indicator)
    {
      var _ := Trigger("logs_update", data);
    }

    /** The socket's `connect_error` event: only logged, so the connected flag keeps its value. */
    method OnConnectError()
      requires Valid()
      ensures Valid()
    {
    }

    /** `disconnect()`: the socket is asked to close; its `disconnect` event arrives as `OnDisconnect`. */
    method Disconnect()
      requires Valid()
      modifies this
      ensures Valid()
      ensures hasSocket ==> sent == old(sent) + [CloseSocket]
      ensures !hasSocket ==> sent == old(sent)
      ensures hasSocket == old(hasSocket) && isConnected == old(isConnected) && callbacks == old(callbacks)
      ensures invoked == old(invoked) && indicator == old(indicator)
    {
      if hasSocket {
        sent := sent + [CloseSocket];
      }
    }
  }
}
