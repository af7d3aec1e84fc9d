/**
 * `CacheStore` (src/app/core/infra/repo/cache-store.ts): a key-to-entry map
 * with expiry, two side tables keyed by URL (last ETag seen, last body seen)
 * and a cross-tab channel on which invalidations are announced.
 *
 * `Date.now()` is the explicit argument `now`. The `BroadcastChannel` is the
 * `outbox` sequence of posted messages; `channel` says whether the browser
 * offers one. A message from another tab is handed to `OnMessage`.
 */
module CacheStore {
  import opened Wrappers
  import opened Json
  import Metrics

  /** Sixty seconds, the default time-to-live of `set`. */
  const DEFAULT_TTL: int := 60000

  datatype Entry = Entry(data: Value, etag: Option<string>, expiresAt: int)

  /** `InvalidationMessage`, plus anything else that arrives on the channel. */
  datatype Message = InvalidateMsg(keys: seq<string>) | ClearMsg(reason: Option<string>) | OtherMsg

  /** The three maps of the store, as one value. */
  datatype CacheState = CacheState(
    entries: map<string, Entry>,
    urlEtags: map<string, string>,
    urlBodies: map<string, Value>)

  const Empty: CacheState := CacheState(map[], map[], map[])

  predicate Fresh(e: Entry, now: int) {
    now < e.expiresAt
  }

  /** What `peek(key)` returns: the stored entry, whatever its expiry. */
  function Peek(st: CacheState, key: string): (r: Option<Entry>)
    ensures r.Some? <==> key in st.entries
    ensures r.Some? ==> r.value == st.entries[key]
  {
    if key in st.entries then Some(st.entries[key]) else None
  }

  /** What `get(key)` returns at time `now`: the entry only while it is fresh. */
  function Lookup(st: CacheState, key: string, now: int): (r: Option<Entry>)
    ensures r.Some? <==> key in st.entries && now < st.entries[key].expiresAt
    ensures r.Some? ==> r == Peek(st, key)
  {
    if key in st.entries && Fresh(st.entries[key], now) then Some(st.entries[key]) else None
  }

  /** The counter that `get(key)` increments. */
  function LookupMetric(st: CacheState, key: string, now: int): (m: Metrics.MetricKey)
    ensures m == Metrics.CacheHits <==> Lookup(st, key, now).Some?
    ensures m == Metrics.CacheMisses <==> Lookup(st, key, now).None?
  {
    if Lookup(st, key, now).Some? then Metrics.CacheHits else Metrics.CacheMisses
  }

  /**
   * The state after `get(key)`: an expired entry is evicted, so a `get` that
   * returned nothing is followed by a `peek` that returns nothing as well.
   */
  function Evict(st: CacheState, key: string, now: int): (r: CacheState)
    ensures Lookup(st, key, now).None? ==> Peek(r, key).None?
    ensures Lookup(st, key, now).Some? ==> r == st
    ensures forall k :: k != key ==> Peek(r, k) == Peek(st, k)
    ensures r.urlEtags == st.urlEtags && r.urlBodies == st.urlBodies
  {
    if key in st.entries && !Fresh(st.entries[key], now)
    then st.(entries := st.entries - {key})
    else st
  }

  /** The state after `set(key, data, etag, ttl)` at time `now`. */
  function Stored(st: CacheState, key: string, data: Value, etag: Option<string>, ttl: int, now: int): (r: CacheState)
    ensures Peek(r, key) == Some(Entry(data, etag, now + ttl))
    ensures ttl > 0 ==> Lookup(r, key, now) == Some(Entry(data, etag, now + ttl))
    ensures forall k :: k != key ==> Peek(r, k) == Peek(st, k)
    ensures r.urlEtags == st.urlEtags && r.urlBodies == st.urlBodies
  {
    st.(entries := st.entries[key := Entry(data, etag, now + ttl)])
  }

  /** The state after `setStale(key, data, etag)`: stored, but already expired for every clock reading. */
  function StoredStale(st: CacheState, key: string, data: Value, etag: Option<string>): (r: CacheState)
    ensures Peek(r, key) == Some(Entry(data, etag, 0))
    ensures forall now :: now >= 0 ==> Lookup(r, key, now).None? && Peek(Evict(r, key, now), key).None?
    ensures forall k :: k != key ==> Peek(r, k) == Peek(st, k)
    ensures r.urlEtags == st.urlEtags && r.urlBodies == st.urlBodies
  {
    st.(entries := st.entries[key := Entry(data, etag, 0)])
  }

  /** The state after `invalidate(keys)`: exactly those keys are gone, nothing else changes. */
  function Invalidated(st: CacheState, keys: seq<string>): (r: CacheState)
    ensures forall k :: k in keys ==> Peek(r, k).None?
    ensures forall k :: k !in keys ==> Peek(r, k) == Peek(st, k)
    ensures r.urlEtags == st.urlEtags && r.urlBodies == st.urlBodies
  {
    st.(entries := st.entries - (set k | k in keys))
  }

  /** The state after `setUrlMeta(url, {etag, body})`: each part is written only when given. */
  function WithUrlMeta(st: CacheState, url: string, etag: Option<string>, body: Value): (r: CacheState)
    ensures r.entries == st.entries
    ensures (etag.Some? && etag.value != "") ==> r.urlEtags == st.urlEtags[url := etag.value]
    ensures !(etag.Some? && etag.value != "") ==> r.urlEtags == st.urlEtags
    ensures body != Undefined ==> r.urlBodies == st.urlBodies[url := body]
    ensures body == Undefined ==> r.urlBodies == st.urlBodies
  {
    CacheState(
      st.entries,
      if etag.Some? && etag.value != "" then st.urlEtags[url := etag.value] else st.urlEtags,
      if body != Undefined then st.urlBodies[url := body] else st.urlBodies)
  }

  /** What `getUrlEtag(url)` returns. */
  function UrlEtag(st: CacheState, url: string): Option<string> {
    if url in st.urlEtags then Some(st.urlEtags[url]) else None
  }

  /** What `getUrlBody(url)` returns: `Undefined` when no body was recorded. */
  function UrlBody(st: CacheState, url: string): Value {
    if url in st.urlBodies then st.urlBodies[url] else Undefined
  }

  /** The message a broadcasting call posts, when the browser has a channel. */
  function Posted(channel: bool, broadcast: bool, m: Message): (r: seq<Message>)
    ensures |r| <= 1
    ensures r == [m] <==> channel && broadcast
  {
    if channel && broadcast then [m] else []
  }

  class Store {
    var cache: map<string, Entry>
    var urlEtags: map<string, string>
    var urlBodies: map<string, Value>
    /** Messages posted on the `cache` channel, oldest first. */
    var outbox: seq<Message>
    /** Whether `BroadcastChannel` exists in the window. */
    const channel: bool
    const metrics: Metrics.MetricsService

    function State(): CacheState
      reads this
    {
      CacheState(cache, urlEtags, urlBodies)
    }

    constructor (metrics: Metrics.MetricsService, channel: bool)
      ensures State() == Empty && outbox == []
      ensures this.metrics == metrics && this.channel == channel
    {
      this.metrics := metrics;
      this.channel := channel;
      cache := map[];
      urlEtags := map[];
      urlBodies := map[];
      outbox := [];
    }

    /** `get(key)`: a fresh entry counts a hit; an absent or expired one counts a miss, and an expired one is evicted. */
    method Get(key: string, now: int) returns (r: Option<Entry>)
      modifies this, metrics
      ensures r == Lookup(old(State()), key, now)
      ensures State() == Evict(old(State()), key, now)
      ensures metrics.counters == Metrics.Bumped(old(metrics.counters), LookupMetric(old(State()), key, now), 1)
      ensures outbox == old(outbox)
    {
      if key !in cache {
        metrics.Inc(Metrics.CacheMisses, 1);
        return None;
      }
      var entry := cache[key];
      if entry.expiresAt <= now {
        cache := cache - {key};
        metrics.Inc(Metrics.CacheMisses, 1);
        return None;
      }
      metrics.Inc(Metrics.CacheHits, 1);
      return Some(entry);
    }

    /** `peek(key)`: the stored entry whatever its expiry; no state or counter changes. */
    method PeekEntry(key: string) returns (r: Option<Entry>)
      ensures r == Peek(State(), key)
      ensures r.Some? ==> key in cache && r.value == cache[key]
      ensures r.None? ==> key !in cache
    {
      r := if key in cache then Some(cache[key]) else None;
    }

    /** `set(key, data, etag, ttl)`; callers pass `DEFAULT_TTL` where the source omits the TTL. */
    method Set(key: string, data: Value, etag: Option<string>, ttl: int, now: int)
      modifies this
      ensures State() == Stored(old(State()), key, data, etag, ttl, now)
      ensures outbox == old(outbox)
    {
      cache := cache[key := Entry(data, etag, now + ttl)];
    }

    /** `setStale(key, data, etag)`. */
    method SetStale(key: string, data: Value, etag: Option<string>)
      modifies this
      ensures State() == StoredStale(old(State()), key, data, etag)
      ensures outbox == old(outbox)
    {
      cache := cache[key := Entry(data, etag, 0)];
    }

    /** `invalidate(keys, broadcast)`: deletes the keys one by one, then announces them if asked to. */
    method Invalidate(keys: seq<string>, broadcast: bool)
      modifies this
      ensures State() == Invalidated(old(State()), keys)
      ensures outbox == old(outbox) + Posted(channel, broadcast, InvalidateMsg(keys))
    {
      var i := 0;
      while i < |keys|
        invariant 0 <= i <= |keys|
        invariant cache == old(cache) - (set k | k in keys[..i])
        invariant urlEtags == old(urlEtags) && urlBodies == old(urlBodies) && outbox == old(outbox)
      {
        assert keys[..i + 1] == keys[..i] + [keys[i]];
        cache := cache - {keys[i]};
        i := i + 1;
      }
      assert keys[..i] == keys;
      if broadcast && channel {
        outbox := outbox + [InvalidateMsg(keys)];
      }
    }

    /** `clearAll(reason, broadcast)`: empties all three maps, then announces it if asked to. */
    method ClearAll(reason: Option<string>, broadcast: bool)
      modifies this
      ensures State() == Empty
      ensures outbox == old(outbox) + Posted(channel, broadcast, ClearMsg(reason))
    {
      cache := map[];
      urlEtags := map[];
      urlBodies := map[];
      if broadcast && channel {
        outbox := outbox + [ClearMsg(reason)];
      }
    }

    /** `setUrlMeta(url, {etag, body})`; an absent `etag` or `body` is `None` or `Undefined`. */
    method SetUrlMeta(url: string, etag: Option<string>, body: Value)
      modifies this
      ensures State() == WithUrlMeta(old(State()), url, etag, body)
      ensures outbox == old(outbox)
    {
      if etag.Some? && etag.value != "" {
        urlEtags := urlEtags[url := etag.value];
      }
      if body != Undefined {
        urlBodies := urlBodies[url := body];
      }
    }

    /** `getUrlEtag(url)`. */
    method GetUrlEtag(url: string) returns (r: Option<string>)
      ensures r == UrlEtag(State(), url)
      ensures r.Some? <==> url in urlEtags
      ensures r.Some? ==> r.value == urlEtags[url]
    {
      r := if url in urlEtags then Some(urlEtags[url]) else None;
    }

    /** `getUrlBody(url)`: `Undefined` when no body was recorded. */
    method GetUrlBody(url: string) returns (r: Value)
      ensures r == UrlBody(State(), url)
      ensures url in urlBodies ==> r == urlBodies[url]
      ensures url !in urlBodies ==> r == Undefined
    {
      r := if url in urlBodies then urlBodies[url] else Undefined;
    }

    /** The channel's `onmessage` handler: replays the change without broadcasting, so nothing is echoed. */
    method OnMessage(msg: Message)
      modifies this
      ensures msg.InvalidateMsg? ==> State() == Invalidated(old(State()), msg.keys)
      ensures msg.ClearMsg? ==> State() == Empty
      ensures msg.OtherMsg? ==> State() == old(State())
      ensures outbox == old(outbox)
    {
      match msg
      case InvalidateMsg(keys) =>
        Invalidate(keys, false);
      case ClearMsg(reason) =>
        ClearAll(reason, false);
      case OtherMsg =>
    }
  }
}
