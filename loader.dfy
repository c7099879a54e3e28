/**
 * The shared partials loader (packages/shared/js/loader.js): its configuration,
 * its service detection, the versioned sessionStorage cache of fetched HTML
 * partials, and the cache-first fetch. The network is a parameter: the result
 * `fetch` would give for the requested URL. Post-processing of the fetched
 * markup (`processHeader`, `processFooter`) and `init` are DOM work and are not
 * modelled.
 */
module Loader {
  import opened Wrappers
  import opened Platform
  import EventBus
  import Navigation

  datatype Config = Config(baseUrl: string, cache: bool, version: string)

  /** The keys `window.SHARED_CONFIG` sets, each absent or given. */
  datatype Overrides = Overrides(baseUrl: Option<string>, cache: Option<bool>, version: Option<string>)

  const DEFAULTS := Config("/shared", true, "1.0.0")

  const CACHE_PREFIX := "shared_partial_"

  /** `Object.assign(defaults, window.SHARED_CONFIG || {})` */
  function MergeConfig(overrides: Option<Overrides>): Config {
    var o := overrides.GetOr(Overrides(None, None, None));
    Config(o.baseUrl.GetOr(DEFAULTS.baseUrl), o.cache.GetOr(DEFAULTS.cache), o.version.GetOr(DEFAULTS.version))
  }

  /** The keys of a configuration, all given. */
  function AsOverrides(config: Config): Overrides {
    Overrides(Some(config.baseUrl), Some(config.cache), Some(config.version))
  }

  /** `window.SHARED_CONFIG = {}` behaves like no configuration at all: the defaults. */
  lemma EmptySharedConfigIsDefault()
    ensures MergeConfig(Some(Overrides(None, None, None))) == MergeConfig(None) == DEFAULTS
  {
  }

  /**
   * A configuration that sets every key is taken as it is, whatever the
   * defaults; so merging is idempotent: feeding a merged configuration back
   * in as `SHARED_CONFIG` gives it back.
   */
  lemma FullOverrideWins(config: Config, overrides: Option<Overrides>)
    ensures MergeConfig(Some(AsOverrides(config))) == config
    ensures MergeConfig(Some(AsOverrides(MergeConfig(overrides)))) == MergeConfig(overrides)
  {
  }

  /** Setting one key changes that setting only: the other two keep their defaults. */
  lemma SingleOverride(baseUrl: string, cache: bool, version: string)
    ensures MergeConfig(Some(Overrides(Some(baseUrl), None, None))) == DEFAULTS.(baseUrl := baseUrl)
    ensures MergeConfig(Some(Overrides(None, Some(cache), None))) == DEFAULTS.(cache := cache)
    ensures MergeConfig(Some(Overrides(None, None, Some(version)))) == DEFAULTS.(version := version)
  {
  }

  /** `getCurrentService()` of the loader. */
  function CurrentService(path: string): Option<string> {
    if StartsWith(path, "/booking") then Some("booking")
    else if StartsWith(path, "/catalogue") then Some("catalogue")
    else None
  }

  /** The loader, the navigation bar and the event bus put every page in the same service. */
  lemma CurrentServiceAgrees(path: string)
    ensures CurrentService(path) == Navigation.CurrentService(Navigation.NAV_CONFIG.links, path)
    ensures CurrentService(path) ==
      if EventBus.DetectService(path) == EventBus.UNKNOWN then None else Some(EventBus.DetectService(path))
  {
    Navigation.NavigationAgreesWithBus(path);
  }

  /** `getCacheKey(name)` under cache version `version`. */
  function CacheKey(version: string, name: string): (key: string)
    ensures StartsWith(key, CACHE_PREFIX)
  {
    assert (CACHE_PREFIX + version + "_" + name)[..|CACHE_PREFIX|] == CACHE_PREFIX;
    CACHE_PREFIX + version + "_" + name
  }

  /** Under one cache version, distinct partials never share a cache entry. */
  lemma CacheKeyInjective(version: string, a: string, b: string)
    requires CacheKey(version, a) == CacheKey(version, b)
    ensures a == b
  {
    assert CacheKey(version, a) == (CACHE_PREFIX + version + "_") + a;
    assert CacheKey(version, b) == (CACHE_PREFIX + version + "_") + b;
    PrefixCancels(CACHE_PREFIX + version + "_", a, b);
  }

  /** Across versions keys can coincide: the version is not delimited from the name. */
  lemma CacheKeysOfDifferentVersionsCanCoincide()
    ensures CacheKey("1", "a_b") == CacheKey("1_a", "b")
  {
  }

  /** The outcome of `await fetch(url)` and `await response.text()`. */
  datatype FetchResult =
    | Failed                                     // a rejected fetch or body read
    | Response(ok: bool, status: int, body: string)

  /** `sessionStorage.getItem(getCacheKey(name))` as seen by `getFromCache`. */
  function CacheRead(config: Config, storageEnabled: bool, session: map<string, string>, name: string): Option<string> {
    if !config.cache || !storageEnabled then None
    else
      var key := CacheKey(config.version, name);
      if key in session then Some(session[key]) else None
  }

  /** sessionStorage after `setCache(name, html)`; `fits` is false when `setItem` throws. */
  function CacheWrite(config: Config, storageEnabled: bool, fits: bool, session: map<string, string>, name: string, html: string): map<string, string> {
    if config.cache && storageEnabled && fits then session[CacheKey(config.version, name) := html] else session
  }

  /** With caching switched off, nothing is read and nothing is written. */
  lemma CacheOffIsInert(config: Config, storageEnabled: bool, fits: bool, session: map<string, string>, name: string, html: string)
    requires !config.cache
    ensures CacheRead(config, storageEnabled, session, name) == None
    ensures CacheWrite(config, storageEnabled, fits, session, name, html) == session
  {
  }

  /**
   * With caching on and a successful write, reading back a partial gives what
   * was stored, and every other partial reads as before.
   */
  lemma SetThenGet(config: Config, session: map<string, string>, name: string, other: string, html: string)
    requires config.cache
    ensures CacheRead(config, true, CacheWrite(config, true, true, session, name, html), name) == Some(html)
    ensures other != name ==>
      CacheRead(config, true, CacheWrite(config, true, true, session, name, html), other) == CacheRead(config, true, session, other)
  {
    if other != name && CacheKey(config.version, other) == CacheKey(config.version, name) {
      CacheKeyInjective(config.version, other, name);
    }
  }

  /** The URL `fetchPartial` requests. */
  function PartialUrl(config: Config, name: string): string {
    config.baseUrl + "/html/" + name + ".html"
  }

  /** The loader's state: its configuration and `window.sessionStorage`. */
  class SharedLoader {
    const config: Config
    /** False when sessionStorage is unavailable: reads give null, writes and clearing do nothing. */
    const storageEnabled: bool
    var session: map<string, string>

    /** Loading the script with `window.SHARED_CONFIG` set to `overrides` (or not set). */
    constructor(overrides: Option<Overrides>, storageEnabled: bool, session: map<string, string>)
      ensures config == MergeConfig(overrides) && this.storageEnabled == storageEnabled && this.session == session
    {
      config := MergeConfig(overrides);
      this.storageEnabled := storageEnabled;
      this.session := session;
    }

    /** `getFromCache(name)` */
    function GetFromCache(name: string): Option<string>
      reads this
    {
      CacheRead(config, storageEnabled, session, name)
    }

    /** `setCache(name, html)` */
    method SetCache(name: string, html: string, fits: bool)
      modifies this`session
      ensures session == CacheWrite(config, storageEnabled, fits, old(session), name, html)
    {
      if !config.cache {
        return;
      }
      if storageEnabled && fits {
        session := session[CacheKey(config.version, name) := html];
      }
    }

    /**
     * `fetchPartial(name)`, where `fetched` is what fetching would give. A
     * non-empty cached copy is returned and nothing is requested; otherwise
     * `requested` is the URL fetched, a successful body is cached and
     * returned, and a failure returns null and caches nothing.
     */
    method FetchPartial(name: string, fetched: FetchResult, fits: bool) returns (html: Option<string>, requested: Option<string>)
      modifies this`session
      ensures var cached := old(GetFromCache(name));
        cached.Some? && cached.value != "" ==> html == cached && requested.None? && session == old(session)
      ensures var cached := old(GetFromCache(name));
        !(cached.Some? && cached.value != "") ==> requested == Some(PartialUrl(config, name))
      ensures var cached := old(GetFromCache(name));
        !(cached.Some? && cached.value != "") && fetched.Response? && fetched.ok ==>
          html == Some(fetched.body) && session == CacheWrite(config, storageEnabled, fits, old(session), name, fetched.body)
      ensures var cached := old(GetFromCache(name));
        !(cached.Some? && cached.value != "") && !(fetched.Response? && fetched.ok) ==>
          html.None? && session == old(session)
    {
      var cached := GetFromCache(name);
      if cached.Some? && cached.value != "" {
        return cached, None;
      }
      requested := Some(PartialUrl(config, name));
      if fetched.Response? && fetched.ok {
        SetCache(name, fetched.body, fits);
        html := Some(fetched.body);
      } else {
        html := None;  // !response.ok throws, and the catch returns null
      }
    }

    /** `clearCache()`: remove every key that starts with `shared_partial_`, of any version. */
    method ClearCache()
      modifies this`session
      ensures forall k :: k in session <==> k in old(session) && !(storageEnabled && StartsWith(k, CACHE_PREFIX))
      ensures forall k :: k in session ==> session[k] == old(session)[k]
    {
      if !storageEnabled {
        return;
      }
      var doomed := set k | k in session && StartsWith(k, CACHE_PREFIX);
      while doomed != {}
        invariant forall k :: k in session <==> k in old(session) && (!StartsWith(k, CACHE_PREFIX) || k in doomed)
        invariant forall k :: k in session ==> session[k] == old(session)[k]
        decreases doomed
      {
        var k :| k in doomed;
        session := session - {k};
        doomed := doomed - {k};
      }
    }
  }
}
