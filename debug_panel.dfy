/**
 * `init()` of the debug overlay (packages/shared/js/debug-panel.js): create or
 * reuse the panel, wrap the bus's `emit` so that outbound events are logged,
 * and subscribe one logging handler to every type of the shared catalogue.
 * The MutationObserver that re-attaches the panel is not modelled.
 */
module DebugPanel {
  import opened Wrappers
  import opened Json
  import opened EventBus
  import opened DebugLog

  /**
   * Installs the overlay on `bus` (the script returns at once when there is
   * no bus). `loggers[i]` is the handler it subscribes to `EVENT_TYPES[i]`.
   */
  method Init(bus: EventBus?, overlay: Overlay, loggers: seq<HandlerId>)
    requires |loggers| == |EVENT_TYPES|
    modifies bus, overlay
    ensures bus == null ==> overlay.Snapshot() == old(overlay.Snapshot())
    ensures bus != null ==>
      && bus.emitLog == overlay
      && bus.outbox == old(bus.outbox) && bus.open == old(bus.open)
      && bus.listeners == SubscribeAll(old(bus.listeners), EVENT_TYPES, loggers)
    ensures overlay.bodyPresent == old(overlay.bodyPresent)
    ensures bus != null && old(overlay.attached) ==> overlay.Snapshot() == old(overlay.Snapshot())
    ensures bus != null && !old(overlay.attached) ==>
      overlay.Snapshot() == PanelState(overlay.bodyPresent, overlay.bodyPresent, [])
  {
    if bus == null {
      return;
    }
    overlay.CreatePanel();
    ghost var panel := overlay.Snapshot();
    bus.emitLog := overlay;
    var i := 0;
    while i < |EVENT_TYPES|
      invariant 0 <= i <= |EVENT_TYPES|
      invariant bus.emitLog == overlay && bus.outbox == old(bus.outbox) && bus.open == old(bus.open)
      invariant bus.listeners == SubscribeAll(old(bus.listeners), EVENT_TYPES[..i], loggers[..i])
      invariant overlay.Snapshot() == panel
    {
      var _ := bus.On(EVENT_TYPES[i], loggers[i]);
      assert EVENT_TYPES[..i + 1][..i] == EVENT_TYPES[..i];
      assert loggers[..i + 1][..i] == loggers[..i];
      i := i + 1;
    }
    assert EVENT_TYPES[..i] == EVENT_TYPES;
    assert loggers[..i] == loggers;
  }

  /**
   * The wrapped `emit` logs an outbound entry that names the page's own
   * service: the bus's identity is never empty, so the `unknown` fallback of
   * the overlay only shows for a page that is itself `unknown`.
   */
  lemma OutboundEntryNamesService(path: string, eventType: string, payload: Option<Json>, now: int)
    ensures Entry("out", eventType, payload, DetectService(path), now) ==
      LogEntry(Out, eventType, payload, DetectService(path), now)
  {
  }

  /**
   * What `Init` does to the registry: one logger per catalogue type, after the
   * handlers already there; other types untouched.
   */
  lemma InitRegistry(registry: map<string, seq<HandlerId>>, loggers: seq<HandlerId>)
    requires |loggers| == |EVENT_TYPES|
    ensures forall i :: 0 <= i < |EVENT_TYPES| ==>
      Lookup(SubscribeAll(registry, EVENT_TYPES, loggers), EVENT_TYPES[i]) == Lookup(registry, EVENT_TYPES[i]) + [loggers[i]]
    ensures forall t :: t !in EVENT_TYPES ==> Lookup(SubscribeAll(registry, EVENT_TYPES, loggers), t) == Lookup(registry, t)
  {
    EventTypesDistinct();
    SubscribeAllSpec(registry, EVENT_TYPES, loggers);
  }
}
