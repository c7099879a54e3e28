# Micro-frontends shared scripts, modelled in Dafny

This project models the browser scripts that every micro-frontend of the
micro-frontends platform loads from `packages/shared/js/`:

- **event bus**: a `BroadcastChannel` wrapper that tags messages with the
  sending service, suppresses its own messages, and dispatches to handlers;
- **auth**: the user and token in `localStorage`, and the `user:*` events
  that keep other frontends in step;
- **debug overlay**: wraps `emit`, subscribes a logger per event type, and
  shows the last 50 events, newest first;
- **navigation**: the current service, the navigation bar and the footer;
- **loader**: configuration merging, the versioned `sessionStorage` cache of
  HTML partials, and the cache-first fetch.

## How the model maps to the code

| Dafny file | Module | Code | Form |
|---|---|---|---|
| `event_bus.dfy` | `EventBus` | `event-bus.js` | class over a registry map, an outbox and an open flag |
| `auth.dfy` | `Auth` | `auth.js` | class over a `localStorage` object shared by all pages of the origin |
| `debug_log.dfy` | `DebugLog` | `createPanel` and `logEvent` of `debug-panel.js` | class over the panel state; the trim loop is kept |
| `debug_panel.dfy` | `DebugPanel` | `init` of `debug-panel.js` | its registration loop |
| `navigation.dfy` | `Navigation` | `navigation.js` | pure functions |
| `loader.dfy` | `Loader` | `loader.js` | pure cache functions and a class over `sessionStorage` |
| `page.dfy` | `Page` | one browsing context with the scripts loaded | end-to-end scenarios |

Helper modules:

- `wrappers.dfy`: `Option`.
- `platform.dfy`:
  - `startsWith`;
  - the two browser exceptions that matter here, a storage write over quota and `postMessage` on a closed channel.
- `json.dfy`: JSON values and JavaScript truthiness on them.

### Modelling choices

- **The channel.**
  - `Emit` appends an envelope to `outbox`.
  - Delivering an envelope to another context is an explicit call to `HandleMessage`, or to `Page.Deliver`.
    `HandleMessage` returns the invocations it makes, in order.
- **Handlers** are opaque ids.
  - A handler that throws is one in a `failing` set.
  - The dispatch catches the error and goes on with the next handler.
- **Wrapping of `eventBus.emit`** by the overlay is the field `EventBus.emitLog`.
  - When it is set, `Emit` logs the event first.
  - Then it posts the message, which throws `InvalidState` once the bus is destroyed.
- **Auth storage**: `localStorage` is one `LocalStorage` object per origin.
  - Every page of the origin, and so every page on the bus, shares it.
  - Its entries are a map from keys to stored strings.
  - `Serialized(v)` is the text `JSON.stringify(v)` produced, and `JSON.parse` reads it back as `v`.
  - `Text(s)` is any other string. As a user entry it is unparseable.
  - A write either succeeds or throws. The boolean argument says which.
- **Clock readings** (`Date.now()`, `toLocaleTimeString`) are an `int` argument, one per operation.
- **The network** is an argument to `FetchPartial`: the `fetch` outcome for the requested URL.
- **The bus's service** is derived once, when the bus is constructed, as the code does.
- **Script order.** A `Page` loads `event-bus.js`, then `auth.js`, then, when the overlay is on, `debug-panel.js`.
  - This order is why the peer-logout handler comes before the loggers in `user:logout`'s list.
  - It is an assumption about how each service's pages include the scripts. Those page templates are not part of this model.
- **Closed channel.** After `destroy()` the `BroadcastChannel` is closed and fires no `message` event, so `Page.Deliver` calls no handler, even one subscribed afterwards.

## Model

| member | source | states |
|---|---|---|
| `EventBus.EventTypesDistinct` | packages/shared/js/event-bus.js:103-111 | the seven catalogue event types are pairwise distinct |
| `EventBus.DetectService` | packages/shared/js/event-bus.js:24-29 | the identity is always one of `booking`, `catalogue`, `unknown` |
| `EventBus.DetectServiceExamples` | packages/shared/js/event-bus.js:24-29 | on the six paths `/booking/123`, `/booking`, `/catalogue`, `/catalogue/products/4`, `/admin` and `/`, the identities are booking, booking, catalogue, catalogue, unknown and unknown |
| `EventBus.IndexOf` | packages/shared/js/event-bus.js:83 | `indexOf`: -1 exactly when absent, otherwise the first position holding the handler |
| `EventBus.RemoveFirstSpec` | packages/shared/js/event-bus.js:80-88 | `off` removes exactly the earliest registration of the handler and keeps the order of the rest; no-op when it is absent |
| `EventBus.SubscribeThenUnsubscribe` | packages/shared/js/event-bus.js:67-75 | calling the function `on` returned restores the registrations: the same list when the handler was new, the same multiset otherwise |
| `EventBus.UnsubscribeRemovesOneRegistration` | packages/shared/js/event-bus.js:67-88 | a handler registered twice keeps one registration after one unsubscribe |
| `EventBus.Subscribe` | packages/shared/js/event-bus.js:67-72 | `on` appends the handler to its type's list, creating the list if needed; every other type is untouched |
| `EventBus.SubscribeAllSpec` | packages/shared/js/event-bus.js:67-72 | `on` over several distinct types appends one handler to each, after the existing ones, and leaves other types alone |
| `EventBus.EventBus.constructor` | packages/shared/js/event-bus.js:12-22 | a new bus has an empty registry and an open channel, and takes its identity from the path |
| `EventBus.EventBus.HandleMessage` | packages/shared/js/event-bus.js:31-47 | an envelope from its own service reaches no handler; otherwise every handler of its type is called once, in registration order, with the payload and source, even after earlier handlers throw |
| `EventBus.EventBus.Emit` | packages/shared/js/event-bus.js:52-62 | posts `{type, payload or {}, source: service, timestamp}`; throws `InvalidState` on a closed channel and posts nothing; a wrapping overlay logs the event first |
| `EventBus.EventBus.On` | packages/shared/js/event-bus.js:67-75 | the registry becomes `Subscribe` of the old one; the returned handle names the type and handler |
| `EventBus.EventBus.Off` | packages/shared/js/event-bus.js:80-88 | the list of the type loses its earliest registration of the handler; an unknown type is a no-op |
| `EventBus.EventBus.Unsubscribe` | packages/shared/js/event-bus.js:74 | the unsubscribe closure has exactly the effect of `off(type, handler)` |
| `EventBus.EventBus.Destroy` | packages/shared/js/event-bus.js:93-96 | the channel is closed and the registry emptied |
| `EventBus.DeliverAfterDestroy` | packages/shared/js/event-bus.js:93-96 | after `destroy()` the emptied registry gives `_handleMessage` no handler to call (that the closed channel fires no event at all is `Page.Page.Deliver`'s) |
| `DebugLog.AfterLog` | packages/shared/js/debug-panel.js:60-85 | after one log the new entry heads the list, and the list holds at most 50 entries; an attached panel keeps the newest of its old entries after it; a panel that had to be re-created holds only the new entry; the panel is attached when the document has a body |
| `DebugLog.RecordBounded` | packages/shared/js/debug-panel.js:81-84 | after a log the list holds one more entry, up to at most `MAX_EVENTS` (50) |
| `DebugLog.RecordEvictsOldest` | packages/shared/js/debug-panel.js:81-84 | the new entry is first; the survivors keep their order; the dropped entries are the oldest |
| `DebugLog.AfterLogsNewestFirst` | packages/shared/js/debug-panel.js:60-85 | after a run of logs into an attached panel, the list is the newest 50 of the new entries (newest first) followed by the old list |
| `DebugLog.Overlay.ReplaceBody` | packages/shared/js/debug-panel.js:90-91 | a script replacing the body detaches the panel |
| `DebugLog.Overlay.CreatePanel` | packages/shared/js/debug-panel.js:16-50 | a panel in the document is reused untouched; otherwise a new empty one is made and attached exactly when there is a body |
| `DebugLog.Overlay.LogEvent` | packages/shared/js/debug-panel.js:60-85 | the panel state becomes `AfterLog` of the rendered entry, and the list never exceeds 50 entries |
| `DebugPanel.Init` | packages/shared/js/debug-panel.js:87-112 | without a bus nothing happens; otherwise the panel is created or reused, `emit` is wrapped, and one logger is subscribed per catalogue type; the channel and outbox are untouched |
| `DebugPanel.OutboundEntryNamesService` | packages/shared/js/debug-panel.js:101-105 | the wrapped `emit` logs an `out` entry showing the page's own service name; the bus identity is never empty, so the `unknown` fallback never replaces it |
| `DebugPanel.InitRegistry` | packages/shared/js/debug-panel.js:107-112 | each catalogue type gains exactly its logger after its existing handlers; other types are unchanged |
| `Auth.Auth.constructor` | packages/shared/js/auth.js:99-106 | with a bus, the peer-logout handler is subscribed to `user:logout`; nothing is emitted |
| `Auth.Auth.SetUser` | packages/shared/js/auth.js:29-43 | stores the serialized user, then emits `user:updated {user}`; returns false when the write or the emit throws; emits nothing when the write fails |
| `Auth.Auth.SetToken` | packages/shared/js/auth.js:55-57 | stores the token as plain text; a failing write throws to the caller and changes nothing |
| `Auth.Auth.Login` | packages/shared/js/auth.js:69-76 | storage becomes `AfterLogin`; a failing token write ends the call before any event; otherwise `user:updated` (when the user was stored) then `user:login` are posted and logged; a closed bus makes the final emit throw |
| `Auth.Auth.Logout` | packages/shared/js/auth.js:81-88 | both keys are removed, then `user:logout {}` is posted (and logged), or throws on a closed bus |
| `Auth.Auth.OnPeerLogout` | packages/shared/js/auth.js:100-106 | a peer's logout removes both keys and posts nothing |
| `Auth.Auth.GetUser` | packages/shared/js/auth.js:16-24 | a definition with no contract of its own (`UserIn` of the shared store); its properties are stated by `Auth.StoreRoundTrips`, `Auth.UnreadableUserIsNull`, `Auth.LoginRoundTrip` and `Auth.LogoutClears` |
| `Auth.Auth.GetToken` | packages/shared/js/auth.js:48-50 | a definition with no contract of its own (`TokenIn` of the shared store); its properties are stated by `Auth.StoreRoundTrips`, `Auth.LoginRoundTrip`, `Auth.LoginWithoutUserWrite` and `Auth.LogoutClears` |
| `Auth.Auth.IsAuthenticated` | packages/shared/js/auth.js:62-64 | a definition with no contract of its own; its properties are stated by `Auth.LoginRoundTrip` and `Auth.LogoutClears` |
| `Auth.Auth.GetAuthHeader` | packages/shared/js/auth.js:93-96 | a definition with no contract of its own; its properties are stated by `Auth.HeaderFollowsToken`, `Auth.LoginRoundTrip` and `Auth.LogoutClears` |
| `Auth.LoginRoundTrip` | packages/shared/js/auth.js:48-76 | after a login whose writes succeed, `getToken` is the token, `getUser` the user, `isAuthenticated` holds exactly for a non-empty token and a truthy user, and the header carries the token |
| `Auth.StoreRoundTrips` | packages/shared/js/auth.js:16-57 | a stored user reads back through `getUser` and a stored token through `getToken`; each write leaves the other getter's result unchanged |
| `Auth.HeaderFollowsToken` | packages/shared/js/auth.js:93-96 | the header has `Authorization` exactly when a non-empty token is stored, and its value is then `Bearer ` followed by that token; otherwise the header is `{}` |
| `Auth.LoginWithoutUserWrite` | packages/shared/js/auth.js:69-76 | when only the token write succeeds, the stored user is what it was before |
| `Auth.LogoutClears` | packages/shared/js/auth.js:81-96 | after a logout there is no token, the user is null, the session is not authenticated, the header is `{}`, and all other keys are kept |
| `Auth.UnreadableUserIsNull` | packages/shared/js/auth.js:16-24 | a missing or non-JSON user entry reads as `null` |
| `Navigation.CurrentService` | packages/shared/js/navigation.js:35-43 | null exactly when no link's href prefixes the path; otherwise the service of the first link that does |
| `Navigation.BuildNavigation` | packages/shared/js/navigation.js:46-78 | one item per configured link, in order, with its href, name and icon, under the configured brand |
| `Navigation.ActiveItems` | packages/shared/js/navigation.js:49-51 | with distinct services, at most one item is active: none when there is no current service, the current service's link otherwise |
| `Navigation.BuildFooter` | packages/shared/js/navigation.js:81-93 | a definition with no contract of its own; its properties are stated by `Navigation.BadgeAndFooter` |
| `Navigation.BadgeAndFooter` | packages/shared/js/navigation.js:62-93 | the badge and the footer's "Currently viewing" show the current service exactly when it is non-null and non-empty |
| `Navigation.NavigationAgreesWithBus` | packages/shared/js/navigation.js:10-43 | with the shipped configuration the current service is the bus's identity, or null where the bus says `unknown` |
| `Navigation.ShippedBadge` | packages/shared/js/navigation.js:10-32 | the shipped links name distinct services, and the badge shows exactly when there is a current service |
| `Loader.MergeConfig` | packages/shared/js/loader.js:10-21 | a definition with no contract of its own; its properties are stated by `Loader.EmptySharedConfigIsDefault`, `Loader.FullOverrideWins` and `Loader.SingleOverride` |
| `Loader.EmptySharedConfigIsDefault` | packages/shared/js/loader.js:10-21 | `SHARED_CONFIG = {}` gives the same configuration as no `SHARED_CONFIG`: the defaults |
| `Loader.FullOverrideWins` | packages/shared/js/loader.js:10-21 | a `SHARED_CONFIG` that sets every key is taken as it is, so merging a merged configuration again changes nothing |
| `Loader.SingleOverride` | packages/shared/js/loader.js:10-21 | setting a single key changes only that setting; the other two keep their defaults |
| `Loader.CurrentService` | packages/shared/js/loader.js:24-30 | a definition with no contract of its own; its property is stated by `Loader.CurrentServiceAgrees` |
| `Loader.CurrentServiceAgrees` | packages/shared/js/loader.js:24-30 | the loader's current service equals the navigation's and the bus's (null for `unknown`) |
| `Loader.CacheKey` | packages/shared/js/loader.js:33-35 | every cache key starts with `shared_partial_` |
| `Loader.CacheKeyInjective` | packages/shared/js/loader.js:33-35 | under one version, distinct partial names have distinct keys |
| `Loader.CacheKeysOfDifferentVersionsCanCoincide` | packages/shared/js/loader.js:33-35 | the version and the name are not delimited: version `1` with name `a_b` shares a key with version `1_a` and name `b` |
| `Loader.CacheOffIsInert` | packages/shared/js/loader.js:37-53 | with `cache: false` nothing is read from or written to the cache |
| `Loader.SharedLoader.GetFromCache` | packages/shared/js/loader.js:37-44 | a definition with no contract of its own (`CacheRead` of the loader's state); its properties are stated by `Loader.CacheOffIsInert` and `Loader.SetThenGet` |
| `Loader.SetThenGet` | packages/shared/js/loader.js:37-53 | a cached partial reads back as stored, and other partials read as before |
| `Loader.SharedLoader.constructor` | packages/shared/js/loader.js:10-21 | the loader's configuration is the merged configuration |
| `Loader.SharedLoader.SetCache` | packages/shared/js/loader.js:46-53 | writes under the versioned key only when caching is on and the write does not throw |
| `Loader.SharedLoader.FetchPartial` | packages/shared/js/loader.js:56-79 | a non-empty cached copy is returned without a request; otherwise the partial URL is requested, and a successful body is cached and returned, while a failed fetch or non-ok status returns null and caches nothing |
| `Loader.SharedLoader.ClearCache` | packages/shared/js/loader.js:166-172 | every `shared_partial_` key of any version is removed; every other key and value is kept |
| `Page.Page.constructor` | packages/shared/js/event-bus.js:99-100 | runs, in this order, event-bus.js:99-100, auth.js:99-106 and, with the overlay, debug-panel.js:87-119; loading the scripts gives an open bus with the page's identity over the origin's shared localStorage; the peer-logout handler is first and, with the overlay, one distinct logger per type follows |
| `Page.Page.Deliver` | packages/shared/js/event-bus.js:17-19 | a closed channel delivers nothing, and neither does an inbound message from the page's own service; otherwise each handler of the type is called in order, and only other scripts' handlers in `failing` raise; the shared credentials are cleared exactly when the peer-logout handler runs; the overlay logs one inbound entry per logger that runs; nothing is posted |
| `Page.Page.RunOwned` | packages/shared/js/auth.js:100-106 | the handler of one invocation clears the shared credentials when it is the peer-logout handler, logs one inbound entry of its own type when it is a logger, and otherwise has no modelled effect |
| `Page.Page.RunAll` | packages/shared/js/event-bus.js:40-46 | running the invocations in order clears the credentials exactly when the peer-logout handler is among them, and logs the loggers' entries in invocation order |
| `Page.InboundStep` | packages/shared/js/debug-panel.js:108-111 | one more invocation adds its logger's entry, when it reaches a logger, to the overlay state a run leaves |
| `Page.RunsSnoc` | packages/shared/js/event-bus.js:40-46 | one more invocation runs a handler exactly when it ran before or the new invocation calls it |
| `Page.InboundEntriesShape` | packages/shared/js/debug-panel.js:108-111 | every entry logged for one envelope is `in`, has a catalogue type, and has the envelope's payload, its source (`unknown` when empty) and the clock reading; there is at most one entry per invocation |
| `Page.SubscribeAfterDestroy` | packages/shared/js/event-bus.js:93-96 | a handler subscribed after `destroy()` is never called, because the closed channel fires no message event |
| `Page.CrossFrontendDelivery` | packages/shared/js/event-bus.js:31-62 | an event emitted under /booking reaches a /catalogue handler with its payload and source `booking`, and is suppressed at the sender |
| `Page.LogoutEnvelope` | packages/shared/js/auth.js:81-88 | a logout under /booking removes both keys from the shared store and posts exactly `{type: user:logout, payload: {}, source: booking}` |
| `Page.LogoutHandlersWithOverlay` | packages/shared/js/debug-panel.js:107-112 | with the overlay, `user:logout` runs the peer-logout handler first, then its logger |
| `Page.LogoutInboundEntries` | packages/shared/js/debug-panel.js:108-111 | those two invocations log exactly one inbound `user:logout` entry |
| `Page.PeerLogoutScenario` | packages/shared/js/auth.js:98-106 | with one store shared by the origin, a logout under /booking leaves no credentials; the /catalogue page runs its peer-logout handler first, without raising, causes no reply, and logs one inbound entry |
| `Page.CatalogueReceivesLogout` | packages/shared/js/auth.js:98-106 | a /catalogue page with the overlay that receives a `user:logout` from /booking clears the shared credentials, runs its peer-logout handler first without raising, replies nothing and logs the event once with its payload |
| `Page.SameServiceScenario` | packages/shared/js/event-bus.js:34-35 | a second /booking page runs no handler for the first one's logout, yet its credentials are gone, because the two pages share one store |

## Left out

- The `BroadcastChannel` itself: asynchronous delivery, delivery order across contexts, and the structured clone of messages.
  - Delivery is an explicit `HandleMessage` or `Page.Deliver` call.
- The `console` logging in every script. It has no effect on state.
- DOM markup, styles, the toggle button, and `formatPayload`.
  - The overlay keeps only whether a body exists, whether the panel is attached, and the list of entries.
- The `MutationObserver`, which re-attaches the panel after the body is replaced, is not modelled.
  - `LogEvent` re-creates a missing panel on its own, which gives the same list as long as events keep arriving.
- `DOMContentLoaded` deferral of `init` in the overlay, navigation and loader.
- Navigation's `init`, which inserts the header and footer.
- The loader's `processHeader`, `processFooter` and `init`: DOM rewriting of fetched markup.
- Re-entrant changes while a dispatch runs are not modelled: a handler that calls `on` or `off` during the dispatch.
  - The model's handlers do not change the registry.
  - The peer-logout handler and the overlay loggers, the only handlers these scripts own, never do.
- Handlers of the services' own scripts have no modelled effect beyond being called.
- `Auth.ReadUser`: a `Text` string under the user key is treated as unparseable.
  - Its JSON reading is not modelled, because only `setUser` writes that key, and it writes serialized JSON.
- Storage access that the browser denies is not modelled: `localStorage` is always accessible, and only a write can fail (quota).
  - When access is denied (for example with site data blocked), every access to `window.localStorage` throws a `SecurityError`, reads included.
  - Then `getToken`, `isAuthenticated`, `getAuthHeader`, `setToken`, `login`, `logout` and the peer-logout handler would throw.
    The bus catches the handler's exception.
  - `getUser` and `setUser` would catch it, and return `null` and `false`.
  - In the model, `getUser`'s catch is reached only through a parse error.
- JSON numbers are integers. Floating point is not modelled.
- `Loader.SharedLoader.ClearCache` treats unavailable `sessionStorage` like `typeof sessionStorage === 'undefined'`: nothing is cleared.
  - A `sessionStorage` that exists but throws on access (which the code does not catch) is not distinguished.
- `DebugLog.LogEntry`: the raw direction label is not kept. Only its class (`in` or `out`) and the event type are.
- One clock reading per operation.
  - `Login` stamps both of its events with the same `now`.
  - Separate `Date.now()` readings are not distinguished.
- The backend services, including the booking and catalogue HTTP routes and models, and the page scripts of each service are not part of this model.
- `EventBus.RemoveFirstSpec`: unsubscribing stops a handler from running only when it was registered once for that type.
  - A second registration of the same function keeps it running (`UnsubscribeRemovesOneRegistration`).
