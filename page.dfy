/**
 * One browsing context with the shared scripts loaded in order: the event bus,
 * the auth helper (which subscribes its peer-logout handler) and, optionally,
 * the debug overlay (which wraps `emit` and subscribes one logger per catalogue
 * type). `Deliver` is the channel's `onmessage`: `_handleMessage` followed by
 * the bodies of the handlers it calls, for the handlers these scripts own;
 * handlers of other scripts have no modelled effect. No handler here changes
 * the registry while the dispatch runs.
 */
module Page {
  import opened Wrappers
  import opened Json
  import opened EventBus
  import opened DebugLog
  import Auth
  import DebugPanel

  /** The overlay entries logged for the invocations in `calls` that reach a logger. */
  function InboundEntries(calls: seq<Invocation>, loggers: seq<HandlerId>, now: int): seq<LogEntry>
    requires |loggers| == |EVENT_TYPES|
    decreases |calls|
  {
    if calls == [] then []
    else
      var rest := InboundEntries(calls[..|calls| - 1], loggers, now);
      var c := calls[|calls| - 1];
      var k := IndexOf(loggers, c.handler);
      if k >= 0 then rest + [Entry("in", EVENT_TYPES[k], Some(c.payload), c.source, now)] else rest
  }

  /** No two loggers are the same handler. */
  ghost predicate DistinctLoggers(loggers: seq<HandlerId>) {
    forall i, j :: 0 <= i < j < |loggers| ==> loggers[i] != loggers[j]
  }

  /** The loggers the scenarios install: seven distinct handlers, none of them the peer-logout handler 0. */
  lemma ScenarioLoggers()
    ensures |[1, 2, 3, 4, 5, 6, 7]| == |EVENT_TYPES| && 0 !in [1, 2, 3, 4, 5, 6, 7]
    ensures DistinctLoggers([1, 2, 3, 4, 5, 6, 7])
  {
  }

  /**
   * Every entry the overlay logs for a dispatch of one envelope is inbound, has
   * a catalogue type, carries the envelope's payload, shows its source
   * (`unknown` when empty) and the clock reading, and there is at most one per
   * invocation.
   */
  lemma {:induction false} InboundEntriesShape(calls: seq<Invocation>, loggers: seq<HandlerId>, now: int, payload: Json, source: string)
    requires |loggers| == |EVENT_TYPES|
    requires forall i :: 0 <= i < |calls| ==> calls[i].payload == payload && calls[i].source == source
    ensures |InboundEntries(calls, loggers, now)| <= |calls|
    ensures forall e :: e in InboundEntries(calls, loggers, now) ==>
      && e.direction == In && e.eventType in EVENT_TYPES && e.payload == Some(payload) && e.time == now
      && e.source == (if source == "" then UNKNOWN else source)
    decreases |calls|
  {
    if calls != [] {
      InboundEntriesShape(calls[..|calls| - 1], loggers, now, payload, source);
    }
  }

  /** One more invocation adds the overlay entry of its logger, when it reaches one, to a run's effect. */
  lemma InboundStep(start: PanelState, calls: seq<Invocation>, i: nat, loggers: seq<HandlerId>, now: int)
    requires i < |calls| && |loggers| == |EVENT_TYPES|
    ensures IndexOf(loggers, calls[i].handler) >= 0 ==>
      AfterLogs(start, InboundEntries(calls[..i + 1], loggers, now)) ==
        AfterLog(AfterLogs(start, InboundEntries(calls[..i], loggers, now)),
                 Entry("in", EVENT_TYPES[IndexOf(loggers, calls[i].handler)], Some(calls[i].payload), calls[i].source, now))
    ensures IndexOf(loggers, calls[i].handler) < 0 ==>
      AfterLogs(start, InboundEntries(calls[..i + 1], loggers, now)) == AfterLogs(start, InboundEntries(calls[..i], loggers, now))
  {
    var c := calls[i];
    assert calls[..i + 1][..i] == calls[..i] && calls[..i + 1][i] == c;
    var k := IndexOf(loggers, c.handler);
    if k >= 0 {
      AfterLogsSnoc(start, InboundEntries(calls[..i], loggers, now), Entry("in", EVENT_TYPES[k], Some(c.payload), c.source, now));
    }
  }

  /** Handler `h` raises: it is one of `failing`, which only names handlers of other scripts. */
  predicate Raises(h: HandlerId, failing: set<HandlerId>, peerLogout: HandlerId, loggers: seq<HandlerId>) {
    h in failing && h != peerLogout && h !in loggers
  }

  /** Some invocation in `calls` runs handler `h`. */
  ghost predicate Runs(calls: seq<Invocation>, h: HandlerId) {
    exists i :: 0 <= i < |calls| && calls[i].handler == h
  }

  /** Extending the invocations by one runs `h` when it ran before or the new invocation runs it. */
  lemma RunsSnoc(calls: seq<Invocation>, i: nat, h: HandlerId)
    requires i < |calls|
    ensures Runs(calls[..i + 1], h) == (Runs(calls[..i], h) || calls[i].handler == h)
  {
    if Runs(calls[..i + 1], h) && calls[i].handler != h {
      var j :| 0 <= j < i + 1 && calls[..i + 1][j].handler == h;
      assert calls[..i][j].handler == h;
    }
    if Runs(calls[..i], h) {
      var j :| 0 <= j < i && calls[..i][j].handler == h;
      assert calls[..i + 1][j].handler == h;
    }
    if calls[i].handler == h {
      assert calls[..i + 1][i].handler == h;
    }
  }

  class Page {
    const bus: EventBus
    const auth: Auth.Auth
    const overlay: Overlay
    const peerLogout: HandlerId
    const loggers: seq<HandlerId>

    ghost predicate Valid()
      reads this, auth, auth.storage
    {
      && auth.bus == bus
      && auth.Valid()
      && |loggers| == |EVENT_TYPES|
      && peerLogout !in loggers
      && DistinctLoggers(loggers)
    }

    /**
     * Loads the scripts on a page at `path` of the origin whose localStorage
     * is `storage`; the overlay is installed when `debug` holds. Each logger
     * the overlay subscribes is a closure of its own.
     */
    constructor(path: string, storage: Auth.LocalStorage, bodyPresent: bool, debug: bool,
                peerLogout: HandlerId, loggers: seq<HandlerId>)
      requires Auth.TokenIsText(storage.entries)
      requires |loggers| == |EVENT_TYPES| && peerLogout !in loggers && DistinctLoggers(loggers)
      ensures Valid()
      ensures bus.service == DetectService(path) && bus.open && bus.outbox == []
      ensures auth.storage == storage
      ensures this.peerLogout == peerLogout && this.loggers == loggers
      ensures !debug ==> bus.listeners == Subscribe(map[], USER_LOGOUT, peerLogout) && bus.emitLog == null
      ensures debug ==>
        bus.listeners == SubscribeAll(Subscribe(map[], USER_LOGOUT, peerLogout), EVENT_TYPES, loggers) &&
        bus.emitLog == overlay
      ensures overlay.Snapshot() == PanelState(bodyPresent, debug && bodyPresent, [])
      ensures fresh(bus) && fresh(auth) && fresh(overlay)
    {
      var b := new EventBus(path);
      var a := new Auth.Auth(b, storage, peerLogout);
      var o := new Overlay(bodyPresent);
      if debug {
        DebugPanel.Init(b, o, loggers);
      }
      bus, auth, overlay := b, a, o;
      this.peerLogout, this.loggers := peerLogout, loggers;
    }

    /**
     * The body of the handler `c` calls, when it is one these scripts own:
     * the peer-logout handler clears the credentials, a logger logs one
     * inbound entry of its own type; any other handler has no modelled effect.
     */
    method RunOwned(c: Invocation, now: int)
      requires Valid()
      modifies auth.storage, overlay
      ensures Valid()
      ensures auth.storage.entries ==
        if c.handler == peerLogout then Auth.AfterLogout(old(auth.storage.entries)) else old(auth.storage.entries)
      ensures IndexOf(loggers, c.handler) >= 0 ==>
        overlay.Snapshot() ==
          AfterLog(old(overlay.Snapshot()), Entry("in", EVENT_TYPES[IndexOf(loggers, c.handler)], Some(c.payload), c.source, now))
      ensures IndexOf(loggers, c.handler) < 0 ==> overlay.Snapshot() == old(overlay.Snapshot())
    {
      if c.handler == peerLogout {
        auth.OnPeerLogout();
      } else {
        var k := IndexOf(loggers, c.handler);
        if k >= 0 {
          overlay.LogEvent("in", EVENT_TYPES[k], Some(c.payload), c.source, now);
        }
      }
    }

    /**
     * An inbound envelope at clock reading `now`; the handlers of other scripts
     * in `failing` raise. A closed channel fires no message event, so once
     * `destroy()` has run nothing is delivered. Nothing is sent in reply, the registry is untouched,
     * the credentials are cleared exactly when the peer-logout handler runs,
     * and the overlay logs one inbound entry per logger that runs, in order.
     */
    method Deliver(envelope: Envelope, failing: set<HandlerId>, now: int) returns (calls: seq<Invocation>)
      requires Valid()
      modifies auth.storage, overlay
      ensures Valid()
      ensures !bus.open || envelope.source == bus.service ==> calls == []
      ensures bus.open && envelope.source != bus.service ==> |calls| == |bus.HandlersFor(envelope.eventType)|
      ensures forall i :: 0 <= i < |calls| ==>
        calls[i].handler == bus.HandlersFor(envelope.eventType)[i] &&
        calls[i].payload == envelope.payload && calls[i].source == envelope.source &&
        calls[i].threw == Raises(calls[i].handler, failing, peerLogout, loggers)
      ensures auth.storage.entries ==
        if Runs(calls, peerLogout) then Auth.AfterLogout(old(auth.storage.entries)) else old(auth.storage.entries)
      ensures overlay.Snapshot() == AfterLogs(old(overlay.Snapshot()), InboundEntries(calls, loggers, now))
    {
      if !bus.open {
        return [];
      }
      var raising := set h | h in failing && Raises(h, failing, peerLogout, loggers);
      calls := bus.HandleMessage(envelope, raising);
      assert forall i :: 0 <= i < |calls| ==> calls[i].threw == Raises(calls[i].handler, failing, peerLogout, loggers);
      RunAll(calls, now);
    }

    /** Runs this page's own handlers among `calls`, in order, and nothing else. */
    method RunAll(calls: seq<Invocation>, now: int)
      requires Valid()
      modifies auth.storage, overlay
      ensures Valid()
      ensures auth.storage.entries ==
        if Runs(calls, peerLogout) then Auth.AfterLogout(old(auth.storage.entries)) else old(auth.storage.entries)
      ensures overlay.Snapshot() == AfterLogs(old(overlay.Snapshot()), InboundEntries(calls, loggers, now))
    {
      var i := 0;
      while i < |calls|
        invariant 0 <= i <= |calls|
        invariant Valid()
        invariant auth.storage.entries ==
          if Runs(calls[..i], peerLogout) then Auth.AfterLogout(old(auth.storage.entries)) else old(auth.storage.entries)
        invariant overlay.Snapshot() == AfterLogs(old(overlay.Snapshot()), InboundEntries(calls[..i], loggers, now))
      {
        InboundStep(old(overlay.Snapshot()), calls, i, loggers, now);
        RunsSnoc(calls, i, peerLogout);
        RunOwned(calls[i], now);
        i := i + 1;
      }
      assert calls[..i] == calls;
    }
  }

  /**
   * A page under /booking emits `user:login` with `{id: 7}`. A page under
   * /catalogue with a handler on `user:login` receives `({id: 7}, "booking")`;
   * the sender, subscribed as well, receives nothing for its own message.
   */
  method CrossFrontendDelivery(handler: HandlerId) returns (atCatalogue: seq<Invocation>, atBooking: seq<Invocation>)
    ensures atCatalogue == [Invocation(handler, Single("id", JNumber(7)), BOOKING, false)]
    ensures atBooking == []
  {
    DetectServiceExamples();
    var booking := new EventBus("/booking/123");
    var catalogue := new EventBus("/catalogue");
    var _ := booking.On(USER_LOGIN, handler);
    var _ := catalogue.On(USER_LOGIN, handler);
    var _ := booking.Emit(USER_LOGIN, Some(Single("id", JNumber(7))), 0);
    var envelope := booking.outbox[0];
    atCatalogue := catalogue.HandleMessage(envelope, {});
    atBooking := booking.HandleMessage(envelope, {});
  }

  /**
   * A /catalogue page destroys its bus and then subscribes a handler to
   * `notification`: an envelope from /booking still reaches nobody, because
   * the channel is closed for good.
   */
  method SubscribeAfterDestroy(handler: HandlerId, now: int) returns (calls: seq<Invocation>)
    ensures calls == []
  {
    DetectServiceExamples();
    ScenarioLoggers();
    var storage := new Auth.LocalStorage(map[]);
    var p := new Page("/catalogue", storage, true, false, 0, [1, 2, 3, 4, 5, 6, 7]);
    p.bus.Destroy();
    var _ := p.bus.On(NOTIFICATION, handler);
    calls := p.Deliver(Envelope(NOTIFICATION, EmptyObject, BOOKING, now), {}, now);
  }

  /** A page under /booking of the origin logs its user out: the shared store loses both keys. */
  method LogoutEnvelope(storage: Auth.LocalStorage, now: int) returns (envelope: Envelope)
    requires Auth.TokenIsText(storage.entries)
    modifies storage
    ensures storage.entries == Auth.AfterLogout(old(storage.entries))
    ensures envelope == Envelope(USER_LOGOUT, EmptyObject, BOOKING, now)
  {
    DetectServiceExamples();
    var bus := new EventBus("/booking/1");
    var auth := new Auth.Auth(bus, storage, 0);
    var _ := auth.Logout(now);
    envelope := bus.outbox[0];
  }

  /** A /catalogue page with the overlay; `user:logout` reaches its peer-logout handler, then its logger. */
  method CataloguePage(storage: Auth.LocalStorage, loggers: seq<HandlerId>) returns (page: Page)
    requires Auth.TokenIsText(storage.entries)
    requires |loggers| == |EVENT_TYPES| && 0 !in loggers && DistinctLoggers(loggers)
    ensures fresh(page) && fresh(page.bus) && fresh(page.overlay) && page.Valid()
    ensures page.bus.open && page.bus.service == CATALOGUE && page.bus.outbox == [] && page.auth.storage == storage
    ensures page.peerLogout == 0 && page.loggers == loggers
    ensures page.bus.HandlersFor(USER_LOGOUT) == [0, loggers[1]]
    ensures page.overlay.Snapshot() == PanelState(true, true, [])
  {
    DetectServiceExamples();
    page := new Page("/catalogue", storage, true, true, 0, loggers);
    LogoutHandlersWithOverlay(0, loggers);
  }

  /** On a page with the overlay, `user:logout` reaches the peer-logout handler first, then its logger. */
  lemma LogoutHandlersWithOverlay(peerLogout: HandlerId, loggers: seq<HandlerId>)
    requires |loggers| == |EVENT_TYPES|
    ensures Lookup(SubscribeAll(Subscribe(map[], USER_LOGOUT, peerLogout), EVENT_TYPES, loggers), USER_LOGOUT) ==
      [peerLogout, loggers[1]]
  {
    DebugPanel.InitRegistry(Subscribe(map[], USER_LOGOUT, peerLogout), loggers);
    assert EVENT_TYPES[1] == USER_LOGOUT;
  }

  /** Those two invocations log one inbound entry. */
  lemma LogoutInboundEntries(calls: seq<Invocation>, peerLogout: HandlerId, loggers: seq<HandlerId>, now: int)
    requires |loggers| == |EVENT_TYPES| && peerLogout !in loggers && DistinctLoggers(loggers)
    requires |calls| == 2 && calls[0].handler == peerLogout && calls[1].handler == loggers[1]
    ensures InboundEntries(calls, loggers, now) == [Entry("in", USER_LOGOUT, Some(calls[1].payload), calls[1].source, now)]
  {
    var first := calls[..1];
    assert first[..0] == [];
    assert IndexOf(loggers, peerLogout) == -1;
    assert InboundEntries(first, loggers, now) == [];
    var k := IndexOf(loggers, loggers[1]);
    assert k == 1 by {
      assert loggers[0] != loggers[1];
      assert loggers[..1] == [loggers[0]];
    }
    assert calls[..|calls| - 1] == first;
    assert InboundEntries(calls, loggers, now) == [] + [Entry("in", EVENT_TYPES[1], Some(calls[1].payload), calls[1].source, now)];
  }

  /**
   * Two pages of the origin share `store`. Logging out under /booking leaves
   * the store without credentials; the /catalogue page receives the event,
   * runs its peer-logout handler (which finds nothing left to remove), sends
   * nothing in reply and logs the event in its overlay.
   */
  method PeerLogoutScenario(store: map<string, Auth.Stored>, now: int)
    returns (storeAfter: map<string, Auth.Stored>, peerCalls: seq<Invocation>, peerReplies: seq<Envelope>, peerLog: seq<LogEntry>)
    requires Auth.TokenIsText(store)
    ensures storeAfter == Auth.AfterLogout(store)
    ensures |peerCalls| == 2 && peerCalls[0] == Invocation(0, EmptyObject, BOOKING, false)
    ensures peerReplies == []
    ensures peerLog == [LogEntry(In, USER_LOGOUT, Some(EmptyObject), BOOKING, now)]
  {
    var storage := new Auth.LocalStorage(store);
    var envelope := LogoutEnvelope(storage, now);
    ghost var cleared := storage.entries;
    peerCalls, peerReplies, peerLog := CatalogueReceivesLogout(storage, envelope, now);
    assert Auth.AfterLogout(cleared) == cleared;
    storeAfter := storage.entries;
  }

  /**
   * A /catalogue page with the overlay, on the origin whose localStorage is
   * `storage`, receives a `user:logout` sent under /booking: it runs its
   * peer-logout handler and then its logger, replies nothing and logs the
   * event once.
   */
  method CatalogueReceivesLogout(storage: Auth.LocalStorage, envelope: Envelope, now: int)
    returns (calls: seq<Invocation>, replies: seq<Envelope>, log: seq<LogEntry>)
    requires Auth.TokenIsText(storage.entries)
    requires envelope.eventType == USER_LOGOUT && envelope.source == BOOKING
    modifies storage
    ensures storage.entries == Auth.AfterLogout(old(storage.entries))
    ensures |calls| == 2 && calls[0] == Invocation(0, envelope.payload, BOOKING, false)
    ensures replies == []
    ensures log == [LogEntry(In, USER_LOGOUT, Some(envelope.payload), BOOKING, now)]
  {
    DetectServiceExamples();
    ScenarioLoggers();
    var loggers := [1, 2, 3, 4, 5, 6, 7];
    var b := CataloguePage(storage, loggers);
    calls := b.Deliver(envelope, {}, now);
    assert calls[0].handler == 0;
    assert Runs(calls, 0);
    LogoutInboundEntries(calls, 0, loggers, now);
    replies, log := b.bus.outbox, b.overlay.entries;
  }

  /**
   * Two pages under /booking share `store` and suppress each other's
   * messages: the second page runs no handler for the first one's logout,
   * yet its credentials are gone, because the store they read is the same.
   */
  method SameServiceScenario(store: map<string, Auth.Stored>, now: int)
    returns (storeAfter: map<string, Auth.Stored>, calls: seq<Invocation>)
    requires Auth.TokenIsText(store)
    ensures calls == []
    ensures storeAfter == Auth.AfterLogout(store)
  {
    DetectServiceExamples();
    var storage := new Auth.LocalStorage(store);
    ScenarioLoggers();
    var loggers := [1, 2, 3, 4, 5, 6, 7];
    var c := new Page("/booking/2", storage, true, false, 0, loggers);
    var envelope := LogoutEnvelope(storage, now);
    calls := c.Deliver(envelope, {}, now);
    storeAfter := storage.entries;
  }
}
