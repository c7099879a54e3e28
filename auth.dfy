/**
 * The shared authentication helper (packages/shared/js/auth.js): the user and
 * token kept under two localStorage keys, and the bus events that keep other
 * frontends in step.
 *
 * localStorage is one object per origin, shared by every page on the bus,
 * holding a map from keys to stored strings. A string is either
 * `Serialized(v)`, the text `JSON.stringify(v)` wrote (which `JSON.parse` reads
 * back as `v`, and which is never empty), or `Text(s)`, any other string. A
 * storage write that fails is a `false` argument; a read never fails.
 */
module Auth {
  import opened Wrappers
  import opened Platform
  import opened Json
  import opened EventBus
  import DebugLog

  const AUTH_STORAGE_KEY := "mf_auth_user"
  const TOKEN_STORAGE_KEY := "mf_auth_token"

  datatype Stored = Text(s: string) | Serialized(value: Json)

  /** The event payload `{ user }`. */
  function UserPayload(user: Json): Json {
    Single("user", user)
  }

  /** `JSON.parse(userData)` for a non-empty stored string; None when it throws. */
  function Parse(stored: Stored): Option<Json> {
    match stored
    case Serialized(v) => Some(v)
    case Text(_) => None
  }

  /** `userData ? JSON.parse(userData) : null`, with a parse error read as `null`. */
  function ReadUser(stored: Option<Stored>): Json {
    match stored
    case None => JNull
    case Some(Text("")) => JNull
    case Some(v) => Parse(v).GetOr(JNull)
  }

  /** What `getUser()` returns on `store`. */
  function UserIn(store: map<string, Stored>): Json {
    ReadUser(if AUTH_STORAGE_KEY in store then Some(store[AUTH_STORAGE_KEY]) else None)
  }

  /** What `getToken()` returns on `store`. */
  function TokenIn(store: map<string, Stored>): Option<string>
    requires TokenIsText(store)
  {
    if TOKEN_STORAGE_KEY in store then Some(store[TOKEN_STORAGE_KEY].s) else None
  }

  /** `!!token`, for what `getToken()` returns. */
  predicate TruthyToken(token: Option<string>) {
    token.Some? && token.value != ""
  }

  /** What `isAuthenticated()` returns on `store`. */
  predicate Authenticated(store: map<string, Stored>)
    requires TokenIsText(store)
  {
    TruthyToken(TokenIn(store)) && Truthy(UserIn(store))
  }

  /** What `getAuthHeader()` returns on `store`. */
  function AuthHeader(store: map<string, Stored>): map<string, string>
    requires TokenIsText(store)
  {
    var token := TokenIn(store);
    if TruthyToken(token) then map["Authorization" := "Bearer " + token.value] else map[]
  }

  /** localStorage after `login(user, token)`, given which of its two writes succeed. */
  function AfterLogin(store: map<string, Stored>, user: Json, token: string, tokenWriteOk: bool, userWriteOk: bool): map<string, Stored> {
    if !tokenWriteOk then store
    else if !userWriteOk then store[TOKEN_STORAGE_KEY := Text(token)]
    else store[TOKEN_STORAGE_KEY := Text(token)][AUTH_STORAGE_KEY := Serialized(user)]
  }

  /** localStorage after `logout()`, and after the peer `user:logout` handler. */
  function AfterLogout(store: map<string, Stored>): map<string, Stored> {
    store - {AUTH_STORAGE_KEY, TOKEN_STORAGE_KEY}
  }

  /** Only `setToken` writes the token key, and it writes plain text. */
  ghost predicate TokenIsText(store: map<string, Stored>) {
    TOKEN_STORAGE_KEY in store ==> store[TOKEN_STORAGE_KEY].Text?
  }

  /** The storage entries the bus may change when `bus` emits. */
  ghost function BusRepr(bus: EventBus?): set<object>
    reads bus
  {
    if bus == null then {} else bus.Repr()
  }

  /** The overlay's state, if `bus` has one. */
  function LogOf(bus: EventBus?): Option<DebugLog.PanelState>
    reads bus, if bus == null then {} else {bus.emitLog}
  {
    if bus == null || bus.emitLog == null then None else Some(bus.emitLog.Snapshot())
  }

  /** The overlay after logging the outbound events `events`, each `(type, payload)`, sent as `service` at `now`. */
  function LoggedOut(st: Option<DebugLog.PanelState>, events: seq<(string, Json)>, service: string, now: int): Option<DebugLog.PanelState>
    decreases |events|
  {
    if st.None? || events == [] then st
    else LoggedOut(Some(DebugLog.AfterLog(st.value, DebugLog.Entry("out", events[0].0, Some(events[0].1), service, now))),
                   events[1..], service, now)
  }

  /** The envelopes `bus` posts for `events` at `now`. */
  function Posted(events: seq<(string, Json)>, service: string, now: int): (envelopes: seq<Envelope>)
    ensures |envelopes| == |events|
    ensures forall i :: 0 <= i < |events| ==> envelopes[i] == Envelope(events[i].0, events[i].1, service, now)
  {
    if events == [] then [] else [Envelope(events[0].0, events[0].1, service, now)] + Posted(events[1..], service, now)
  }

  /** Logging two batches of events one after the other is logging them together. */
  lemma {:induction false} LoggedOutAppend(st: Option<DebugLog.PanelState>, a: seq<(string, Json)>, b: seq<(string, Json)>, service: string, now: int)
    ensures LoggedOut(LoggedOut(st, a, service, now), b, service, now) == LoggedOut(st, a + b, service, now)
    decreases |a|
  {
    if st.Some? && a != [] {
      assert (a + b)[1..] == a[1..] + b;
      LoggedOutAppend(Some(DebugLog.AfterLog(st.value, DebugLog.Entry("out", a[0].0, Some(a[0].1), service, now))), a[1..], b, service, now);
    } else if st.Some? {
      assert a + b == b;
    }
  }

  /**
   * `window.localStorage` of one origin. Every page of the origin sees the
   * same object, and the broadcast channel only links pages of one origin,
   * so all pages on the bus share a single store.
   */
  class LocalStorage {
    var entries: map<string, Stored>

    constructor(entries: map<string, Stored>)
      ensures this.entries == entries
    {
      this.entries := entries;
    }
  }

  class Auth {
    /** `window.localStorage`, shared with the other pages of the origin. */
    const storage: LocalStorage
    /** `window.eventBus`, or null when the bus script did not load. */
    const bus: EventBus?

    ghost predicate Valid()
      reads this, storage
    {
      TokenIsText(storage.entries)
    }

    /**
     * Loading the script: with a bus, subscribe `peerLogout` (the handler whose
     * body is `OnPeerLogout`) to `user:logout`.
     */
    constructor(bus: EventBus?, storage: LocalStorage, peerLogout: HandlerId)
      requires TokenIsText(storage.entries)
      modifies bus
      ensures Valid() && this.storage == storage && this.bus == bus
      ensures bus != null ==>
        bus.listeners == Subscribe(old(bus.listeners), USER_LOGOUT, peerLogout) &&
        bus.outbox == old(bus.outbox) && bus.open == old(bus.open) && bus.emitLog == old(bus.emitLog)
    {
      this.storage := storage;
      this.bus := bus;
      new;
      if bus != null {
        var _ := bus.On(USER_LOGOUT, peerLogout);
      }
    }

    /** `getUser()` */
    function GetUser(): Json
      reads this, storage
    {
      UserIn(storage.entries)
    }

    /** `getToken()` */
    function GetToken(): Option<string>
      reads this, storage
      requires Valid()
    {
      TokenIn(storage.entries)
    }

    /** `isAuthenticated()`: `!!getToken() && !!getUser()` */
    predicate IsAuthenticated()
      reads this, storage
      requires Valid()
    {
      Authenticated(storage.entries)
    }

    /** `getAuthHeader()` */
    function GetAuthHeader(): map<string, string>
      reads this, storage
      requires Valid()
    {
      AuthHeader(storage.entries)
    }

    /**
     * `setUser(user)`: store it, then announce `user:updated`. Any exception on
     * the way (the write failing, the channel closed) is caught: the result is
     * false. An event is sent only once the write has succeeded.
     */
    method SetUser(user: Json, writeOk: bool, now: int) returns (ok: bool)
      requires Valid()
      modifies storage, BusRepr(bus)
      ensures Valid()
      ensures storage.entries == if writeOk then old(storage.entries)[AUTH_STORAGE_KEY := Serialized(user)] else old(storage.entries)
      ensures bus != null ==> bus.open == old(bus.open) && bus.listeners == old(bus.listeners) && bus.emitLog == old(bus.emitLog)
      ensures ok == (writeOk && (bus == null || bus.open))
      ensures bus != null ==>
        bus.outbox == old(bus.outbox) + (if writeOk && bus.open then Posted([(USER_UPDATED, UserPayload(user))], bus.service, now) else [])
      ensures LogOf(bus) == LoggedOut(old(LogOf(bus)), if writeOk then [(USER_UPDATED, UserPayload(user))] else [], if bus == null then "" else bus.service, now)
    {
      if !writeOk {
        return false;  // localStorage.setItem threw
      }
      storage.entries := storage.entries[AUTH_STORAGE_KEY := Serialized(user)];
      if bus != null {
        var r := bus.Emit(USER_UPDATED, Some(UserPayload(user)), now);
        if r.Threw? {
          return false;
        }
      }
      ok := true;
    }

    /** `setToken(token)`; a failing write throws to the caller. */
    method SetToken(token: string, writeOk: bool) returns (r: Outcome)
      requires Valid()
      modifies storage
      ensures Valid()
      ensures r == if writeOk then Completed else Threw(QuotaExceeded)
      ensures storage.entries == if writeOk then old(storage.entries)[TOKEN_STORAGE_KEY := Text(token)] else old(storage.entries)
    {
      if !writeOk {
        return Threw(QuotaExceeded);
      }
      storage.entries := storage.entries[TOKEN_STORAGE_KEY := Text(token)];
      r := Completed;
    }

    /**
     * `login(user, token)`: `setToken`, `setUser`, then announce `user:login`.
     * An exception from `setToken` or from the last `emit` ends the call.
     */
    method Login(user: Json, token: string, tokenWriteOk: bool, userWriteOk: bool, now: int) returns (r: Outcome)
      requires Valid()
      modifies storage, BusRepr(bus)
      ensures Valid()
      ensures storage.entries == AfterLogin(old(storage.entries), user, token, tokenWriteOk, userWriteOk)
      ensures r ==
        if !tokenWriteOk then Threw(QuotaExceeded)
        else if bus != null && !bus.open then Threw(InvalidState)
        else Completed
      ensures bus != null ==> bus.open == old(bus.open) && bus.listeners == old(bus.listeners) && bus.emitLog == old(bus.emitLog)
      ensures bus != null ==>
        bus.outbox == old(bus.outbox) + (if bus.open then Posted(LoginEvents(user, tokenWriteOk, userWriteOk), bus.service, now) else [])
      ensures LogOf(bus) == LoggedOut(old(LogOf(bus)), LoginEvents(user, tokenWriteOk, userWriteOk), if bus == null then "" else bus.service, now)
    {
      r := SetToken(token, tokenWriteOk);
      if r.Threw? {
        return;
      }
      var _ := SetUser(user, userWriteOk, now);
      ghost var updated := if userWriteOk then [(USER_UPDATED, UserPayload(user))] else [];
      if bus != null {
        r := bus.Emit(USER_LOGIN, Some(UserPayload(user)), now);
        LoggedOutAppend(old(LogOf(bus)), updated, [(USER_LOGIN, UserPayload(user))], bus.service, now);
      }
    }

    /**
     * `logout()`: remove both keys, then announce `user:logout` with `{}`.
     */
    method Logout(now: int) returns (r: Outcome)
      requires Valid()
      modifies storage, BusRepr(bus)
      ensures Valid()
      ensures storage.entries == AfterLogout(old(storage.entries))
      ensures r == if bus != null && !bus.open then Threw(InvalidState) else Completed
      ensures bus != null ==> bus.open == old(bus.open) && bus.listeners == old(bus.listeners) && bus.emitLog == old(bus.emitLog)
      ensures bus != null ==>
        bus.outbox == old(bus.outbox) + (if bus.open then Posted([(USER_LOGOUT, EmptyObject)], bus.service, now) else [])
      ensures LogOf(bus) == LoggedOut(old(LogOf(bus)), [(USER_LOGOUT, EmptyObject)], if bus == null then "" else bus.service, now)
    {
      storage.entries := storage.entries - {AUTH_STORAGE_KEY};
      storage.entries := storage.entries - {TOKEN_STORAGE_KEY};
      r := Completed;
      if bus != null {
        r := bus.Emit(USER_LOGOUT, Some(EmptyObject), now);
      }
    }

    /** The handler subscribed to `user:logout` from other frontends: clear both keys, announce nothing. */
    method OnPeerLogout()
      requires Valid()
      modifies storage
      ensures Valid()
      ensures storage.entries == AfterLogout(old(storage.entries))
      ensures bus != null ==> bus.outbox == old(bus.outbox)
    {
      storage.entries := storage.entries - {AUTH_STORAGE_KEY};
      storage.entries := storage.entries - {TOKEN_STORAGE_KEY};
    }
  }

  /** The events `login` sends: `user:updated` (when the user was stored) and then `user:login`. */
  function LoginEvents(user: Json, tokenWriteOk: bool, userWriteOk: bool): seq<(string, Json)> {
    if !tokenWriteOk then []
    else (if userWriteOk then [(USER_UPDATED, UserPayload(user))] else []) + [(USER_LOGIN, UserPayload(user))]
  }

  /**
   * Login round trip: once both writes succeed, `getToken()` gives the token
   * and `getUser()` the user, whatever was stored before; the session is
   * authenticated exactly when both are truthy.
   */
  lemma LoginRoundTrip(store: map<string, Stored>, user: Json, token: string)
    requires TokenIsText(store)
    ensures TokenIsText(AfterLogin(store, user, token, true, true))
    ensures TokenIn(AfterLogin(store, user, token, true, true)) == Some(token)
    ensures UserIn(AfterLogin(store, user, token, true, true)) == user
    ensures Authenticated(AfterLogin(store, user, token, true, true)) <==> token != "" && Truthy(user)
    ensures AuthHeader(AfterLogin(store, user, token, true, true)) ==
      if token != "" then map["Authorization" := "Bearer " + token] else map[]
  {
  }

  /**
   * Each write reads back through its getter (`JSON.parse(JSON.stringify(user))`
   * is `user`; the token is stored verbatim), and leaves the other getter as it
   * was.
   */
  lemma StoreRoundTrips(store: map<string, Stored>, user: Json, token: string)
    requires TokenIsText(store)
    ensures UserIn(store[AUTH_STORAGE_KEY := Serialized(user)]) == user
    ensures TokenIn(store[AUTH_STORAGE_KEY := Serialized(user)]) == TokenIn(store)
    ensures TokenIn(store[TOKEN_STORAGE_KEY := Text(token)]) == Some(token)
    ensures UserIn(store[TOKEN_STORAGE_KEY := Text(token)]) == UserIn(store)
  {
  }

  /** The header carries the stored token exactly when there is a non-empty token. */
  lemma HeaderFollowsToken(store: map<string, Stored>)
    requires TokenIsText(store)
    ensures "Authorization" in AuthHeader(store) <==>
      TOKEN_STORAGE_KEY in store && store[TOKEN_STORAGE_KEY] != Text("")
    ensures "Authorization" in AuthHeader(store) ==>
      AuthHeader(store) == map["Authorization" := "Bearer " + store[TOKEN_STORAGE_KEY].s]
    ensures "Authorization" !in AuthHeader(store) ==> AuthHeader(store) == map[]
  {
  }

  /** When only the token write succeeds the user is left as it was. */
  lemma LoginWithoutUserWrite(store: map<string, Stored>, user: Json, token: string)
    requires TokenIsText(store)
    ensures TokenIn(AfterLogin(store, user, token, true, false)) == Some(token)
    ensures UserIn(AfterLogin(store, user, token, true, false)) == UserIn(store)
  {
  }

  /** After a logout (own or a peer's) nobody is signed in and no Authorization header is sent. */
  lemma LogoutClears(store: map<string, Stored>)
    requires TokenIsText(store)
    ensures TokenIsText(AfterLogout(store))
    ensures TokenIn(AfterLogout(store)) == None && UserIn(AfterLogout(store)) == JNull
    ensures !Authenticated(AfterLogout(store)) && AuthHeader(AfterLogout(store)) == map[]
    ensures forall k :: k != AUTH_STORAGE_KEY && k != TOKEN_STORAGE_KEY ==>
      (k in AfterLogout(store) <==> k in store) && (k in store ==> AfterLogout(store)[k] == store[k])
  {
  }

  /** An absent, empty or unparseable user entry reads as `null`. */
  lemma UnreadableUserIsNull(store: map<string, Stored>)
    requires AUTH_STORAGE_KEY !in store || store[AUTH_STORAGE_KEY].Text?
    ensures UserIn(store) == JNull
  {
  }
}
