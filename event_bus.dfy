/**
 * The shared cross-frontend event bus (packages/shared/js/event-bus.js).
 *
 * The BroadcastChannel is an outbox of envelopes that `Emit` appends to and an
 * `open` flag that `Destroy` clears; delivery of an inbound envelope is the
 * explicit call `HandleMessage`, which returns the handler invocations it makes.
 * Handlers are opaque ids. Reassigning `eventBus.emit` (the debug overlay) is
 * the field `emitLog`: when set, `Emit` logs the outbound event there first.
 */
module EventBus {
  import opened Wrappers
  import opened Platform
  import opened Json
  import DebugLog

  const CHANNEL_NAME := "micro-frontend-events"

  const BOOKING := "booking"
  const CATALOGUE := "catalogue"
  const UNKNOWN := "unknown"

  // window.EventTypes
  const USER_LOGIN := "user:login"
  const USER_LOGOUT := "user:logout"
  const USER_UPDATED := "user:updated"
  const CART_UPDATED := "cart:updated"
  const BOOKING_CREATED := "booking:created"
  const BOOKING_UPDATED := "booking:updated"
  const NOTIFICATION := "notification"

  /** `Object.values(window.EventTypes)`, in declaration order. */
  const EVENT_TYPES: seq<string> :=
    [USER_LOGIN, USER_LOGOUT, USER_UPDATED, CART_UPDATED, BOOKING_CREATED, BOOKING_UPDATED, NOTIFICATION]

  /** Every catalogue entry names a different event type. */
  lemma EventTypesDistinct()
    ensures forall i, j :: 0 <= i < j < |EVENT_TYPES| ==> EVENT_TYPES[i] != EVENT_TYPES[j]
  {
  }

  /** A registered handler function, by identity. */
  type HandlerId = nat

  /** The wire message `{type, payload, source, timestamp}`. */
  datatype Envelope = Envelope(eventType: string, payload: Json, source: string, timestamp: int)

  /**
   * One call `handler(payload, source)` made while dispatching; `threw` says
   * whether the handler raised (the exception is caught and logged).
   */
  datatype Invocation = Invocation(handler: HandlerId, payload: Json, source: string, threw: bool)

  /** What `on` returns: calling it is `off(eventType, handler)`. */
  datatype Subscription = Subscription(eventType: string, handler: HandlerId)

  /** `_detectService()` on `window.location.pathname`. */
  function DetectService(path: string): (service: string)
    ensures service in {BOOKING, CATALOGUE, UNKNOWN}
  {
    if StartsWith(path, "/booking") then BOOKING
    else if StartsWith(path, "/catalogue") then CATALOGUE
    else UNKNOWN
  }

  /** The identities of the paths the repository's services are mounted under. */
  lemma DetectServiceExamples()
    ensures DetectService("/booking/123") == BOOKING
    ensures DetectService("/booking") == BOOKING
    ensures DetectService("/catalogue") == CATALOGUE
    ensures DetectService("/catalogue/products/4") == CATALOGUE
    ensures DetectService("/admin") == UNKNOWN
    ensures DetectService("/") == UNKNOWN
  {
    assert "/booking/123"[..8] == "/booking";
    assert "/catalogue/products/4"[..10] == "/catalogue";
    assert "/catalogue"[..8][1] != "/booking"[1];
    assert "/catalogue/products/4"[..8][1] != "/booking"[1];
  }

  /** `handlers.indexOf(handler)`: -1, or the first position holding `h`. */
  function IndexOf(s: seq<HandlerId>, h: HandlerId): (i: int)
    ensures -1 <= i < |s|
    ensures i == -1 <==> h !in s
    ensures 0 <= i ==> s[i] == h && h !in s[..i]
  {
    if s == [] then -1
    else if s[0] == h then 0
    else
      var j := IndexOf(s[1..], h);
      if j == -1 then -1 else j + 1
  }

  /** The list after `off`: `splice(indexOf(h), 1)` when `h` occurs. */
  function RemoveFirst(s: seq<HandlerId>, h: HandlerId): seq<HandlerId> {
    var i := IndexOf(s, h);
    if i > -1 then s[..i] + s[i + 1..] else s
  }

  /**
   * `off` takes out exactly one registration of `h` (the earliest), keeping
   * the order of the rest, and leaves a list without `h` as it was.
   */
  lemma RemoveFirstSpec(s: seq<HandlerId>, h: HandlerId)
    ensures h !in s ==> RemoveFirst(s, h) == s
    ensures h in s ==> exists i :: 0 <= i < |s| && s[i] == h && h !in s[..i] && RemoveFirst(s, h) == s[..i] + s[i + 1..]
    ensures multiset(RemoveFirst(s, h)) == multiset(s) - multiset{h}
  {
    var i := IndexOf(s, h);
    if i > -1 {
      assert s == s[..i] + [h] + s[i + 1..];
      assert multiset(s) == multiset(s[..i]) + multiset{h} + multiset(s[i + 1..]);
    } else {
      assert multiset(s)[h] == 0;
    }
  }

  /**
   * Subscribing and then calling the returned unsubscribe function gives back
   * the same registrations: the very same list when `h` was not registered
   * before, and otherwise the same handlers with the same multiplicities (the
   * earliest registration of `h` is the one removed, so the order can change).
   */
  lemma SubscribeThenUnsubscribe(s: seq<HandlerId>, h: HandlerId)
    ensures multiset(RemoveFirst(s + [h], h)) == multiset(s)
    ensures h !in s ==> RemoveFirst(s + [h], h) == s
  {
    RemoveFirstSpec(s + [h], h);
    assert multiset(s + [h]) == multiset(s) + multiset{h};
    if h !in s {
      assert IndexOf(s + [h], h) == |s| by {
        var i := IndexOf(s + [h], h);
        assert (s + [h])[|s|] == h;
      }
      assert (s + [h])[..|s|] == s;
    }
  }

  /** Registering the same handler twice makes it run twice; one unsubscribe leaves one registration. */
  lemma UnsubscribeRemovesOneRegistration(s: seq<HandlerId>, h: HandlerId)
    ensures multiset(RemoveFirst(s + [h] + [h], h))[h] == multiset(s)[h] + 1
  {
    RemoveFirstSpec(s + [h] + [h], h);
    assert multiset(s + [h] + [h]) == multiset(s) + multiset{h, h};
  }

  /** The handlers `registry` holds for `eventType`: `registry.get(eventType) || []`. */
  function Lookup(registry: map<string, seq<HandlerId>>, eventType: string): seq<HandlerId> {
    if eventType in registry then registry[eventType] else []
  }

  /** The registry after `on(eventType, handler)`. */
  function Subscribe(registry: map<string, seq<HandlerId>>, eventType: string, handler: HandlerId): (r: map<string, seq<HandlerId>>)
    ensures r.Keys == registry.Keys + {eventType}
    ensures Lookup(r, eventType) == Lookup(registry, eventType) + [handler]
    ensures forall t :: t != eventType ==> Lookup(r, t) == Lookup(registry, t)
  {
    registry[eventType := Lookup(registry, eventType) + [handler]]
  }

  /** The registry after `on(types[i], handlers[i])` for each `i` in order. */
  function SubscribeAll(registry: map<string, seq<HandlerId>>, types: seq<string>, handlers: seq<HandlerId>): map<string, seq<HandlerId>>
    requires |types| == |handlers|
    decreases |types|
  {
    if types == [] then registry
    else Subscribe(SubscribeAll(registry, types[..|types| - 1], handlers[..|types| - 1]), types[|types| - 1], handlers[|types| - 1])
  }

  /**
   * Subscribing one handler to each of several distinct types appends exactly
   * that handler, after the existing ones, to each of those types' lists and
   * leaves every other type's list alone.
   */
  lemma {:induction false} SubscribeAllSpec(registry: map<string, seq<HandlerId>>, types: seq<string>, handlers: seq<HandlerId>)
    requires |types| == |handlers|
    requires forall i, j :: 0 <= i < j < |types| ==> types[i] != types[j]
    ensures forall i :: 0 <= i < |types| ==>
      Lookup(SubscribeAll(registry, types, handlers), types[i]) == Lookup(registry, types[i]) + [handlers[i]]
    ensures forall t :: t !in types ==> Lookup(SubscribeAll(registry, types, handlers), t) == Lookup(registry, t)
    decreases |types|
  {
    if types != [] {
      var n := |types| - 1;
      var front, hs := types[..n], handlers[..n];
      var last, h := types[n], handlers[n];
      var mid := SubscribeAll(registry, front, hs);
      var result := SubscribeAll(registry, types, handlers);
      assert result == Subscribe(mid, last, h);
      SubscribeAllSpec(registry, front, hs);
      assert last !in front by {
        forall i | 0 <= i < n ensures front[i] != last { assert front[i] == types[i]; }
      }
      forall i | 0 <= i < |types|
        ensures Lookup(result, types[i]) == Lookup(registry, types[i]) + [handlers[i]]
      {
        if i < n {
          assert types[i] == front[i] && handlers[i] == hs[i];
          assert types[i] != last;
        }
      }
      forall t | t !in types
        ensures Lookup(result, t) == Lookup(registry, t)
      {
        assert t != last;
      }
    }
  }

  class EventBus {
    /** `this.listeners`: event type to handlers, in registration order. */
    var listeners: map<string, seq<HandlerId>>
    /** Messages posted on the channel, oldest first. */
    var outbox: seq<Envelope>
    /** `this.service`, derived once, when the bus is constructed. */
    const service: string
    /** False once `channel.close()` has run. */
    var open: bool
    /** The debug overlay that wraps `emit`, if it has been installed. */
    var emitLog: DebugLog.Overlay?

    /** `new EventBus()` on a page at `path`. */
    constructor(path: string)
      ensures service == DetectService(path)
      ensures listeners == map[] && outbox == [] && open && emitLog == null
    {
      listeners := map[];
      outbox := [];
      service := DetectService(path);
      open := true;
      emitLog := null;
    }

    /** Everything `Emit` may change. */
    ghost function Repr(): set<object>
      reads this
    {
      {this} + (if emitLog == null then {} else {emitLog})
    }

    /** `this.listeners.get(eventType) || []` */
    function HandlersFor(eventType: string): seq<HandlerId>
      reads this
    {
      Lookup(listeners, eventType)
    }

    /**
     * `_handleMessage(envelope)`, with the handlers in `failing` raising. An
     * envelope this context sent itself reaches no handler; otherwise every
     * handler registered for its type is called once, in registration order,
     * with the payload and the source, whether or not earlier ones raised.
     */
    method HandleMessage(envelope: Envelope, failing: set<HandlerId>) returns (calls: seq<Invocation>)
      ensures envelope.source == service ==> calls == []
      ensures envelope.source != service ==>
        |calls| == |HandlersFor(envelope.eventType)| &&
        forall i :: 0 <= i < |calls| ==>
          calls[i] == Invocation(HandlersFor(envelope.eventType)[i], envelope.payload, envelope.source,
                                 HandlersFor(envelope.eventType)[i] in failing)
    {
      if envelope.source == service {
        return [];
      }
      var handlers := HandlersFor(envelope.eventType);
      calls := [];
      var i := 0;
      while i < |handlers|
        invariant 0 <= i <= |handlers|
        invariant |calls| == i
        invariant forall k :: 0 <= k < i ==>
          calls[k] == Invocation(handlers[k], envelope.payload, envelope.source, handlers[k] in failing)
      {
        var h := handlers[i];
        // try { handler(payload, source) } catch (error) { log }
        calls := calls + [Invocation(h, envelope.payload, envelope.source, h in failing)];
        i := i + 1;
      }
    }

    /**
     * `emit(eventType, payload)` at clock reading `now`; a missing payload is
     * `{}`. The wrapped emit logs the event first; `postMessage` then throws
     * if the channel was closed.
     */
    method Emit(eventType: string, payload: Option<Json>, now: int) returns (r: Outcome)
      modifies this`outbox, emitLog
      ensures r == if open then Completed else Threw(InvalidState)
      ensures outbox == old(outbox) + if open then [Envelope(eventType, payload.GetOr(EmptyObject), service, now)] else []
      ensures emitLog != null ==>
        emitLog.Snapshot() == DebugLog.AfterLog(old(emitLog.Snapshot()), DebugLog.Entry("out", eventType, payload, service, now))
    {
      if emitLog != null {
        emitLog.LogEvent("out", eventType, payload, service, now);
      }
      if !open {
        return Threw(InvalidState);
      }
      outbox := outbox + [Envelope(eventType, payload.GetOr(EmptyObject), service, now)];
      r := Completed;
    }

    /** `on(eventType, handler)`: append, creating the list if needed; no deduplication. */
    method On(eventType: string, handler: HandlerId) returns (sub: Subscription)
      modifies this`listeners
      ensures listeners == Subscribe(old(listeners), eventType, handler)
      ensures sub == Subscription(eventType, handler)
    {
      if eventType !in listeners {
        listeners := listeners[eventType := []];
      }
      listeners := listeners[eventType := listeners[eventType] + [handler]];
      sub := Subscription(eventType, handler);
    }

    /** `off(eventType, handler)`: drop the earliest registration of `handler`, if any. */
    method Off(eventType: string, handler: HandlerId)
      modifies this`listeners
      ensures eventType !in old(listeners) ==> listeners == old(listeners)
      ensures eventType in old(listeners) ==>
        listeners == old(listeners)[eventType := RemoveFirst(old(listeners)[eventType], handler)]
    {
      if eventType in listeners {
        var handlers := listeners[eventType];
        var index := IndexOf(handlers, handler);
        if index > -1 {
          listeners := listeners[eventType := handlers[..index] + handlers[index + 1..]];
        }
      }
    }

    /** Calls the function `on` returned. */
    method Unsubscribe(sub: Subscription)
      modifies this`listeners
      ensures sub.eventType !in old(listeners) ==> listeners == old(listeners)
      ensures sub.eventType in old(listeners) ==>
        listeners == old(listeners)[sub.eventType := RemoveFirst(old(listeners)[sub.eventType], sub.handler)]
    {
      Off(sub.eventType, sub.handler);
    }

    /** `destroy()`: close the channel and clear the registry. */
    method Destroy()
      modifies this`open, this`listeners
      ensures !open && listeners == map[]
    {
      open := false;
      listeners := map[];
    }
  }

  /** After `destroy()` no inbound envelope reaches a handler. */
  method DeliverAfterDestroy(bus: EventBus, envelope: Envelope, failing: set<HandlerId>) returns (calls: seq<Invocation>)
    modifies bus
    ensures calls == []
  {
    bus.Destroy();
    calls := bus.HandleMessage(envelope, failing);
  }
}
