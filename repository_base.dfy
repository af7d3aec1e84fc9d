/**
 * `RepositoryBase` (src/app/core/infra/repo/repository-base.ts): cache-first
 * reads with one shared request per key, and optimistic writes that patch the
 * cache before the server answers and roll back when it refuses.
 *
 * Every HTTP request is two steps: a start step (the method call, which
 * returns at once) and a completion step that the environment takes later
 * with the server's `Outcome`: a response, an error, or a cancellation (the
 * navigation that `takeUntil(nav$)` listens for). `Repo` is the whole state
 * these steps touch, as one value; each `…Step` function is the effect of one
 * step, and the `Repository` class performs the same steps on the live
 * `CacheStore.Store`, `MetricsService` and in-flight map.
 *
 * The repository and the cache store share the root `MetricsService`, so the
 * class reaches the counters through `cache.metrics`.
 */
module RepositoryBase {
  import opened Wrappers
  import opened Json
  import opened Http
  import CacheStore
  import Metrics

  /** The default `ttlMs` of `getList` and `getItem`. */
  const DEFAULT_READ_TTL: int := 60000

  type Entry = CacheStore.Entry
  type CacheState = CacheStore.CacheState

  datatype ReadKind = ListRead | ItemRead

  /** A read waiting for the server: what the response handler of the request closes over. */
  datatype InFlight = InFlight(id: nat, kind: ReadKind, key: string, url: string, ttl: int, entry: Option<Entry>)

  /** A write waiting for the server, with its snapshot of the cache entry it changes. */
  datatype PendingWrite =
    | CreateOp(listKeys: seq<string>)
    | UpdateOp(itemKey: string, snapshot: Option<Entry>, ifMatch: Option<string>, listKeys: seq<string>)
    | DeleteOp(itemKey: string, snapshot: Option<Entry>, listKeys: seq<string>)

  /** What a read call returns at once. */
  datatype ReadStart =
    | Cached(data: Value)
    | Joined(id: nat)
    | Issued(id: nat, url: string, params: map<string, Value>, ifNoneMatch: Option<string>)

  /** What a write call sends: the request id, the HTTP method and URL, the `If-Match` header and the body. */
  datatype WriteStart = WriteStart(id: nat, verb: string, url: string, ifMatch: Option<string>, body: Value)

  /** How the server, or the router, settles a request. */
  datatype Outcome = Success(resp: Response) | Failure(error: string) | Cancelled

  /** What the returned observable delivers when the request settles. */
  datatype Settled = Emitted(value: Value) | Errored(error: string) | Completed

  datatype Repo = Repo(
    store: CacheState,
    counters: map<Metrics.MetricKey, int>,
    outbox: seq<CacheStore.Message>,
    channel: bool,
    inflight: map<string, InFlight>,
    writes: map<nat, PendingWrite>,
    nextId: nat)

  /** The key under which a read is shared: `GET|key`, for lists and items alike. */
  function DedupKey(key: string): string {
    "GET|" + key
  }

  lemma DedupKeyInjective(a: string, b: string)
    requires DedupKey(a) == DedupKey(b)
    ensures a == b
  {
    assert a == DedupKey(a)[4..];
  }

  /** Request ids are fresh, and each in-flight read sits under its own dedup key. */
  ghost predicate Valid(r: Repo) {
    && (forall d :: d in r.inflight ==> d == DedupKey(r.inflight[d].key) && r.inflight[d].id < r.nextId)
    && (forall id :: id in r.writes ==> id < r.nextId)
  }

  /** `entry?.data`: `Undefined` when there is no entry. */
  function DataOf(e: Option<Entry>): Value {
    if e.Some? then e.value.data else Undefined
  }

  /** `entry?.etag`. */
  function EtagOfEntry(e: Option<Entry>): Option<string> {
    if e.Some? then e.value.etag else None
  }

  /** `etag ?? previous`: the response's ETag, else the one remembered before. */
  function KeptEtag(latest: Option<string>, previous: Option<string>): (r: Option<string>)
    ensures latest.Some? ==> r == latest
    ensures latest.None? ==> r == previous
  {
    if latest.Some? then latest else previous
  }

  /** A header value is sent only when it is truthy (a non-empty string). */
  function HeaderValue(v: Option<string>): (r: Option<string>)
    ensures r.Some? <==> v.Some? && v.value != ""
    ensures r.Some? ==> r == v
  {
    if v.Some? && v.value != "" then v else None
  }

  /**
   * The body a read hands on: the response body when truthy; otherwise the
   * cached data for the key (a list read takes it only when truthy, an item
   * read whenever it is present, else `null`).
   */
  function ReadBody(kind: ReadKind, respBody: Value, cached: Option<Entry>): (b: Value)
    ensures Truthy(respBody) ==> b == respBody
    ensures !Truthy(respBody) && Truthy(DataOf(cached)) ==> b == DataOf(cached)
    ensures kind == ListRead && !Truthy(respBody) && !Truthy(DataOf(cached)) ==> b == respBody
    ensures kind == ItemRead && !Truthy(respBody) ==> b == Coalesce(DataOf(cached), Null)
    ensures kind == ItemRead ==> b != Undefined
  {
    if Truthy(respBody) then respBody
    else match kind
      case ListRead => if Truthy(DataOf(cached)) then DataOf(cached) else respBody
      case ItemRead => Coalesce(DataOf(cached), Null)
  }

  /** The two read paths differ only on a falsy body with falsy-but-present cached data, or no data at all. */
  lemma ReadBodyPathsDiffer(respBody: Value, cached: Option<Entry>)
    requires ReadBody(ListRead, respBody, cached) != ReadBody(ItemRead, respBody, cached)
    ensures !Truthy(respBody) && !Truthy(DataOf(cached))
    ensures Present(DataOf(cached)) ==> ReadBody(ItemRead, respBody, cached) == DataOf(cached)
    ensures !Present(DataOf(cached)) ==> ReadBody(ItemRead, respBody, cached) == Null
  {
  }

  /**
   * The cache after a read's response: a non-null body is stored under the
   * key with the kept ETag and a fresh TTL, and recorded for the response URL
   * (else the request URL); a null body writes nothing.
   */
  function AfterRead(st: CacheState, f: InFlight, resp: Response, now: int): (p: (CacheState, Value))
    ensures p.1 == ReadBody(f.kind, resp.body, CacheStore.Peek(st, f.key))
    ensures Present(p.1) ==>
      var etag := KeptEtag(EtagOf(resp.etagHeader), EtagOfEntry(f.entry));
      var url := resp.url.GetOr(f.url);
      && CacheStore.Peek(p.0, f.key) == Some(CacheStore.Entry(p.1, etag, now + f.ttl))
      && CacheStore.UrlBody(p.0, url) == p.1
      && (HeaderValue(etag).Some? ==> CacheStore.UrlEtag(p.0, url) == etag)
      && (forall k :: k != f.key ==> CacheStore.Peek(p.0, k) == CacheStore.Peek(st, k))
    ensures !Present(p.1) ==> p.0 == st
  {
    var etag := KeptEtag(EtagOf(resp.etagHeader), EtagOfEntry(f.entry));
    var body := ReadBody(f.kind, resp.body, CacheStore.Peek(st, f.key));
    if Present(body) then
      var url := resp.url.GetOr(f.url);
      (CacheStore.WithUrlMeta(CacheStore.Stored(st, f.key, body, etag, f.ttl, now), url, etag, body), body)
    else (st, body)
  }

  /**
   * `getList(key, url, params, ttl)` / `getItem(key, url, ttl)` up to the
   * request: a fresh entry is answered from the cache; otherwise a request in
   * flight for the same key is shared; otherwise a new one is issued. The
   * conditional header is never sent: the miss that led here has already
   * evicted any expired entry, so `peek` finds nothing.
   */
  function StartReadStep(r: Repo, kind: ReadKind, key: string, url: string, params: map<string, Value>, ttl: int, now: int): (p: (Repo, ReadStart))
    ensures CacheStore.Lookup(r.store, key, now).Some? ==>
      && p.1 == Cached(CacheStore.Lookup(r.store, key, now).value.data)
      && p.0 == r.(counters := Metrics.Bumped(r.counters, Metrics.CacheHits, 1))
    ensures CacheStore.Lookup(r.store, key, now).None? ==>
      && p.0.store == CacheStore.Evict(r.store, key, now)
      && p.0.counters == Metrics.Bumped(r.counters, Metrics.CacheMisses, 1)
      && p.0.writes == r.writes && p.0.outbox == r.outbox && p.0.channel == r.channel
    ensures CacheStore.Lookup(r.store, key, now).None? && DedupKey(key) in r.inflight ==>
      p.1 == Joined(r.inflight[DedupKey(key)].id) && p.0.inflight == r.inflight && p.0.nextId == r.nextId
    ensures CacheStore.Lookup(r.store, key, now).None? && DedupKey(key) !in r.inflight ==>
      && p.1 == Issued(r.nextId, url, params, None)
      && p.0.inflight == r.inflight[DedupKey(key) := InFlight(r.nextId, kind, key, url, ttl, None)]
      && p.0.nextId == r.nextId + 1
    ensures p.1.Issued? ==> p.1.ifNoneMatch.None?
  {
    var hit := CacheStore.Lookup(r.store, key, now);
    if hit.Some? then
      (r.(counters := Metrics.Bumped(r.counters, Metrics.CacheHits, 1)), Cached(hit.value.data))
    else
      var r1 := r.(store := CacheStore.Evict(r.store, key, now),
                   counters := Metrics.Bumped(r.counters, Metrics.CacheMisses, 1));
      var d := DedupKey(key);
      if d in r1.inflight then (r1, Joined(r1.inflight[d].id))
      else
        var entry := CacheStore.Peek(r1.store, key);
        var ifNoneMatch := HeaderValue(EtagOfEntry(entry));
        (r1.(inflight := r1.inflight[d := InFlight(r1.nextId, kind, key, url, ttl, entry)], nextId := r1.nextId + 1),
         Issued(r1.nextId, url, params, ifNoneMatch))
  }

  /**
   * The read start the conditional GET evidently intends: the entry is
   * peeked before `get` evicts it, so an expired entry's ETag goes out as
   * `If-None-Match` and is remembered for the response. Everything else is
   * as in `StartReadStep`.
   */
  function CorrectedStartReadStep(r: Repo, kind: ReadKind, key: string, url: string, params: map<string, Value>, ttl: int, now: int): (p: (Repo, ReadStart))
    ensures CacheStore.Lookup(r.store, key, now).None? && DedupKey(key) !in r.inflight ==>
      var entry := CacheStore.Peek(r.store, key);
      && p.1 == Issued(r.nextId, url, params, HeaderValue(EtagOfEntry(entry)))
      && p.0 == StartReadStep(r, kind, key, url, params, ttl, now).0.(inflight := r.inflight[DedupKey(key) := InFlight(r.nextId, kind, key, url, ttl, entry)])
    ensures CacheStore.Lookup(r.store, key, now).Some? || DedupKey(key) in r.inflight ==>
      p == StartReadStep(r, kind, key, url, params, ttl, now)
  {
    var hit := CacheStore.Lookup(r.store, key, now);
    if hit.Some? then
      (r.(counters := Metrics.Bumped(r.counters, Metrics.CacheHits, 1)), Cached(hit.value.data))
    else
      var entry := CacheStore.Peek(r.store, key);
      var r1 := r.(store := CacheStore.Evict(r.store, key, now),
                   counters := Metrics.Bumped(r.counters, Metrics.CacheMisses, 1));
      var d := DedupKey(key);
      if d in r1.inflight then (r1, Joined(r1.inflight[d].id))
      else
        var ifNoneMatch := HeaderValue(EtagOfEntry(entry));
        (r1.(inflight := r1.inflight[d := InFlight(r1.nextId, kind, key, url, ttl, entry)], nextId := r1.nextId + 1),
         Issued(r1.nextId, url, params, ifNoneMatch))
  }

  /**
   * An expired entry with a non-empty ETag: the corrected start revalidates
   * with that ETag, where the start as written sends no header at all.
   */
  lemma StaleEntryRevalidates(r: Repo, kind: ReadKind, key: string, url: string, params: map<string, Value>, ttl: int, now: int, etag: string)
    requires key in r.store.entries && !CacheStore.Fresh(r.store.entries[key], now)
    requires r.store.entries[key].etag == Some(etag) && etag != ""
    requires DedupKey(key) !in r.inflight
    ensures CorrectedStartReadStep(r, kind, key, url, params, ttl, now).1 == Issued(r.nextId, url, params, Some(etag))
    ensures StartReadStep(r, kind, key, url, params, ttl, now).1 == Issued(r.nextId, url, params, None)
  {
    assert CacheStore.Lookup(r.store, key, now).None?;
  }

  /**
   * The read in flight for `key` settles: a response is handed through
   * `AfterRead`; an error is passed on; a cancellation completes silently.
   * In every case the shared request is dropped (`finalize`).
   */
  function CompleteReadStep(r: Repo, key: string, outcome: Outcome, now: int): (p: (Repo, Settled))
    requires DedupKey(key) in r.inflight
    ensures DedupKey(key) !in p.0.inflight
    ensures p.0.inflight == r.inflight - {DedupKey(key)}
    ensures p.0.counters == r.counters && p.0.outbox == r.outbox && p.0.writes == r.writes && p.0.nextId == r.nextId
    ensures outcome.Success? ==>
      var q := AfterRead(r.store, r.inflight[DedupKey(key)], outcome.resp, now);
      p.0.store == q.0 && p.1 == Emitted(q.1)
    ensures outcome.Failure? ==> p.0.store == r.store && p.1 == Errored(outcome.error)
    ensures outcome.Cancelled? ==> p.0.store == r.store && p.1 == Completed
  {
    var d := DedupKey(key);
    var f := r.inflight[d];
    var r1 := r.(inflight := r.inflight - {d});
    match outcome
    case Success(resp) =>
      var q := AfterRead(r.store, f, resp, now);
      (r1.(store := q.0), Emitted(q.1))
    case Failure(e) => (r1, Errored(e))
    case Cancelled => (r1, Completed)
  }

  /** `optimisticCreate(listKeys, url, body)` up to the request: nothing in the cache changes. */
  function StartCreateStep(r: Repo, listKeys: seq<string>, url: string, body: Value): (p: (Repo, WriteStart))
    ensures p.1 == WriteStart(r.nextId, "POST", url, None, body)
    ensures Valid(r) ==> p.1.id !in r.writes
    ensures p.0 == r.(writes := r.writes[r.nextId := CreateOp(listKeys)], nextId := r.nextId + 1)
  {
    (r.(writes := r.writes[r.nextId := CreateOp(listKeys)], nextId := r.nextId + 1), WriteStart(r.nextId, "POST", url, None, body))
  }

  /**
   * `optimisticUpdate(itemKey, url, patch, listKeys)` up to the request: an
   * entry with truthy data is replaced, already stale, by the patched data
   * under the same ETag; the snapshot's ETag is sent as `If-Match` when truthy.
   */
  function StartUpdateStep(r: Repo, itemKey: string, url: string, patch: Value, listKeys: seq<string>): (p: (Repo, WriteStart))
    ensures var snap := CacheStore.Peek(r.store, itemKey);
      && p.1 == WriteStart(r.nextId, "PATCH", url, HeaderValue(EtagOfEntry(snap)), patch)
      && p.0.writes == r.writes[r.nextId := UpdateOp(itemKey, snap, EtagOfEntry(snap), listKeys)]
      && p.0.nextId == r.nextId + 1
      && p.0.inflight == r.inflight && p.0.counters == r.counters && p.0.outbox == r.outbox
      && (Truthy(DataOf(snap)) ==>
            p.0.store == CacheStore.StoredStale(r.store, itemKey, Spread(snap.value.data, patch), snap.value.etag))
      && (!Truthy(DataOf(snap)) ==> p.0.store == r.store)
  {
    var snap := CacheStore.Peek(r.store, itemKey);
    var st := if Truthy(DataOf(snap)) then CacheStore.StoredStale(r.store, itemKey, Spread(snap.value.data, patch), snap.value.etag) else r.store;
    var ifMatch := EtagOfEntry(snap);
    (r.(store := st, writes := r.writes[r.nextId := UpdateOp(itemKey, snap, ifMatch, listKeys)], nextId := r.nextId + 1),
     WriteStart(r.nextId, "PATCH", url, HeaderValue(ifMatch), patch))
  }

  /** `optimisticDelete(itemKey, url, listKeys)` up to the request: the item key is invalidated, with a broadcast. */
  function StartDeleteStep(r: Repo, itemKey: string, url: string, listKeys: seq<string>): (p: (Repo, WriteStart))
    ensures var snap := CacheStore.Peek(r.store, itemKey);
      && p.1 == WriteStart(r.nextId, "DELETE", url, None, Undefined)
      && p.0.store == CacheStore.Invalidated(r.store, [itemKey])
      && CacheStore.Peek(p.0.store, itemKey).None?
      && p.0.outbox == r.outbox + CacheStore.Posted(r.channel, true, CacheStore.InvalidateMsg([itemKey]))
      && p.0.writes == r.writes[r.nextId := DeleteOp(itemKey, snap, listKeys)]
      && p.0.nextId == r.nextId + 1
      && p.0.inflight == r.inflight && p.0.counters == r.counters
  {
    var snap := CacheStore.Peek(r.store, itemKey);
    (r.(store := CacheStore.Invalidated(r.store, [itemKey]),
        outbox := r.outbox + CacheStore.Posted(r.channel, true, CacheStore.InvalidateMsg([itemKey])),
        writes := r.writes[r.nextId := DeleteOp(itemKey, snap, listKeys)],
        nextId := r.nextId + 1),
     WriteStart(r.nextId, "DELETE", url, None, Undefined))
  }

  /** Putting a snapshot back after a failed write: same data and ETag, a new default TTL. */
  function Restored(st: CacheState, itemKey: string, snapshot: Option<Entry>, now: int): (r: CacheState)
    ensures snapshot.Some? ==> CacheStore.Peek(r, itemKey) == Some(CacheStore.Entry(snapshot.value.data, snapshot.value.etag, now + CacheStore.DEFAULT_TTL))
    ensures snapshot.None? ==> r == st
  {
    if snapshot.Some? then CacheStore.Stored(st, itemKey, snapshot.value.data, snapshot.value.etag, CacheStore.DEFAULT_TTL, now) else st
  }

  /** Invalidating the list keys after a write succeeds, with a broadcast. */
  function ListsInvalidated(r: Repo, listKeys: seq<string>): (q: Repo)
    ensures q.store == CacheStore.Invalidated(r.store, listKeys)
    ensures q.outbox == r.outbox + CacheStore.Posted(r.channel, true, CacheStore.InvalidateMsg(listKeys))
    ensures q.counters == r.counters && q.inflight == r.inflight && q.writes == r.writes && q.nextId == r.nextId
  {
    r.(store := CacheStore.Invalidated(r.store, listKeys),
       outbox := r.outbox + CacheStore.Posted(r.channel, true, CacheStore.InvalidateMsg(listKeys)))
  }

  /**
   * The write `id` settles. A success commits (invalidates the lists; an
   * update also stores the server's body, else the snapshot's data, under the
   * new ETag, else the `If-Match` one; a create records URL metadata) and
   * counts `optimistic_success`. A failure restores the snapshot of an update
   * or delete and counts `rollback`. A cancellation changes nothing.
   */
  function CompleteWriteStep(r: Repo, id: nat, outcome: Outcome, now: int): (p: (Repo, Settled))
    requires id in r.writes
    ensures p.0.writes == r.writes - {id}
    ensures p.0.inflight == r.inflight && p.0.nextId == r.nextId && p.0.channel == r.channel
    ensures outcome.Success? ==> p.0.counters == Metrics.Bumped(r.counters, Metrics.OptimisticSuccess, 1)
    ensures outcome.Failure? ==>
      && p.0.counters == Metrics.Bumped(r.counters, Metrics.Rollback, 1)
      && p.1 == Errored(outcome.error)
      && p.0.outbox == r.outbox
    ensures outcome.Failure? && r.writes[id].CreateOp? ==> p.0.store == r.store
    ensures outcome.Failure? && !r.writes[id].CreateOp? ==> p.0.store == Restored(r.store, r.writes[id].itemKey, r.writes[id].snapshot, now)
    ensures outcome.Success? ==>
      p.0.outbox == r.outbox + CacheStore.Posted(r.channel, true, CacheStore.InvalidateMsg(r.writes[id].listKeys))
    ensures outcome.Success? && r.writes[id].CreateOp? ==>
      var lists := CacheStore.Invalidated(r.store, r.writes[id].listKeys);
      var url := outcome.resp.url;
      && (url.Some? && url.value != "" ==> p.0.store == CacheStore.WithUrlMeta(lists, url.value, EtagOf(outcome.resp.etagHeader), outcome.resp.body))
      && (!(url.Some? && url.value != "") ==> p.0.store == lists)
      && p.1 == Emitted(outcome.resp.body)
    ensures outcome.Success? && r.writes[id].UpdateOp? ==>
      var w := r.writes[id];
      var body := Coalesce(outcome.resp.body, DataOf(w.snapshot));
      var committed := CacheStore.Stored(r.store, w.itemKey, body, KeptEtag(EtagOf(outcome.resp.etagHeader), w.ifMatch), CacheStore.DEFAULT_TTL, now);
      && p.0.store == CacheStore.Invalidated(committed, w.listKeys)
      && p.1 == Emitted(body)
    ensures outcome.Success? && r.writes[id].DeleteOp? ==>
      && p.0.store == CacheStore.Invalidated(r.store, r.writes[id].listKeys)
      && p.1 == Emitted(Undefined)
    ensures outcome.Cancelled? ==> p.0 == r.(writes := r.writes - {id}) && p.1 == Completed
  {
    var w := r.writes[id];
    var r0 := r.(writes := r.writes - {id});
    match outcome
    case Cancelled => (r0, Completed)
    case Failure(e) =>
      var st := if w.CreateOp? then r0.store else Restored(r0.store, w.itemKey, w.snapshot, now);
      (r0.(store := st, counters := Metrics.Bumped(r0.counters, Metrics.Rollback, 1)), Errored(e))
    case Success(resp) =>
      var etag := EtagOf(resp.etagHeader);
      match w
      case CreateOp(listKeys) =>
        var r1 := ListsInvalidated(r0, listKeys);
        var st := if resp.url.Some? && resp.url.value != "" then CacheStore.WithUrlMeta(r1.store, resp.url.value, etag, resp.body) else r1.store;
        (r1.(store := st, counters := Metrics.Bumped(r1.counters, Metrics.OptimisticSuccess, 1)), Emitted(resp.body))
      case UpdateOp(itemKey, snapshot, ifMatch, listKeys) =>
        var body := Coalesce(resp.body, DataOf(snapshot));
        var r1 := r0.(store := CacheStore.Stored(r0.store, itemKey, body, KeptEtag(etag, ifMatch), CacheStore.DEFAULT_TTL, now));
        var r2 := ListsInvalidated(r1, listKeys);
        (r2.(counters := Metrics.Bumped(r2.counters, Metrics.OptimisticSuccess, 1)), Emitted(body))
      case DeleteOp(itemKey, snapshot, listKeys) =>
        var r1 := ListsInvalidated(r0, listKeys);
        (r1.(counters := Metrics.Bumped(r1.counters, Metrics.OptimisticSuccess, 1)), Emitted(Undefined))
  }

  // ---------------------------------------------------------------------------
  // Properties of the protocol

  /** Starting a read keeps request ids fresh and each read under its own dedup key. */
  lemma StartReadPreservesValid(r: Repo, kind: ReadKind, key: string, url: string, params: map<string, Value>, ttl: int, now: int)
    requires Valid(r)
    ensures Valid(StartReadStep(r, kind, key, url, params, ttl, now).0)
  {
  }

  /** Settling a read keeps the invariant. */
  lemma CompleteReadPreservesValid(r: Repo, key: string, outcome: Outcome, now: int)
    requires Valid(r) && DedupKey(key) in r.inflight
    ensures Valid(CompleteReadStep(r, key, outcome, now).0)
  {
  }

  /** Starting a write keeps the invariant. */
  lemma StartWritePreservesValid(r: Repo, itemKey: string, url: string, patch: Value, body: Value, listKeys: seq<string>)
    requires Valid(r)
    ensures Valid(StartCreateStep(r, listKeys, url, body).0)
    ensures Valid(StartUpdateStep(r, itemKey, url, patch, listKeys).0)
    ensures Valid(StartDeleteStep(r, itemKey, url, listKeys).0)
  {
  }

  /** Settling a write keeps the invariant. */
  lemma CompleteWritePreservesValid(r: Repo, id: nat, outcome: Outcome, now: int)
    requires Valid(r) && id in r.writes
    ensures Valid(CompleteWriteStep(r, id, outcome, now).0)
  {
  }

  /** A new write never reuses the id of a write still pending. */
  lemma WriteIdsFresh(r: Repo, itemKey: string, url: string, patch: Value, body: Value, listKeys: seq<string>)
    requires Valid(r)
    ensures StartCreateStep(r, listKeys, url, body).1.id !in r.writes
    ensures StartUpdateStep(r, itemKey, url, patch, listKeys).1.id !in r.writes
    ensures StartDeleteStep(r, itemKey, url, listKeys).1.id !in r.writes
  {
  }

  /**
   * One request per key: while the read issued for `key` is in flight, any
   * later `getList` or `getItem` on that key shares it.
   */
  lemma {:induction false} SecondReadJoins(r: Repo, k1: ReadKind, k2: ReadKind, key: string, url1: string, url2: string,
                                           p1: map<string, Value>, p2: map<string, Value>, ttl1: int, ttl2: int, now1: int, now2: int)
    requires StartReadStep(r, k1, key, url1, p1, ttl1, now1).1.Issued?
    ensures var first := StartReadStep(r, k1, key, url1, p1, ttl1, now1);
      StartReadStep(first.0, k2, key, url2, p2, ttl2, now2).1 == Joined(first.1.id)
  {
    var first := StartReadStep(r, k1, key, url1, p1, ttl1, now1);
    assert CacheStore.Peek(first.0.store, key).None?;
    assert CacheStore.Lookup(first.0.store, key, now2).None?;
    assert DedupKey(key) in first.0.inflight;
  }

  /** Optimistic update followed by a refusal: the snapshot is back, with a new expiry, and one rollback is counted. */
  lemma {:induction false} UpdateRollback(r: Repo, itemKey: string, url: string, patch: Value, listKeys: seq<string>, error: string, now: int)
    requires Valid(r)
    ensures var s := StartUpdateStep(r, itemKey, url, patch, listKeys);
      var f := CompleteWriteStep(s.0, s.1.id, Failure(error), now);
      var snap := CacheStore.Peek(r.store, itemKey);
      && (snap.Some? ==> CacheStore.Peek(f.0.store, itemKey) == Some(CacheStore.Entry(snap.value.data, snap.value.etag, now + CacheStore.DEFAULT_TTL)))
      && (snap.None? ==> f.0.store == r.store)
      && Metrics.Count(f.0.counters, Metrics.Rollback) == Metrics.Count(r.counters, Metrics.Rollback) + 1
      && f.0.writes == r.writes
      && f.1 == Errored(error)
  {
    var s := StartUpdateStep(r, itemKey, url, patch, listKeys);
    assert s.1.id !in r.writes;
    assert s.0.writes - {s.1.id} == r.writes;
  }

  /**
   * Optimistic update followed by success: the item holds the server's body
   * (else the snapshot's data) under the new ETag (else the `If-Match` one),
   * fresh for the default TTL, and the list keys are gone.
   */
  lemma {:induction false} UpdateCommit(r: Repo, itemKey: string, url: string, patch: Value, listKeys: seq<string>, resp: Response, now: int)
    requires Valid(r)
    requires itemKey !in listKeys
    ensures var s := StartUpdateStep(r, itemKey, url, patch, listKeys);
      var f := CompleteWriteStep(s.0, s.1.id, Success(resp), now);
      var snap := CacheStore.Peek(r.store, itemKey);
      var body := Coalesce(resp.body, DataOf(snap));
      && CacheStore.Peek(f.0.store, itemKey) == Some(CacheStore.Entry(body, KeptEtag(EtagOf(resp.etagHeader), EtagOfEntry(snap)), now + CacheStore.DEFAULT_TTL))
      && (forall k :: k in listKeys ==> CacheStore.Peek(f.0.store, k).None?)
      && Metrics.Count(f.0.counters, Metrics.OptimisticSuccess) == Metrics.Count(r.counters, Metrics.OptimisticSuccess) + 1
      && f.1 == Emitted(body)
  {
    var s := StartUpdateStep(r, itemKey, url, patch, listKeys);
    assert s.0.writes[s.1.id] == UpdateOp(itemKey, CacheStore.Peek(r.store, itemKey), EtagOfEntry(CacheStore.Peek(r.store, itemKey)), listKeys);
  }

  /**
   * Create followed by success: the list keys are gone and every other entry
   * is as it was; when the response names a URL its ETag and body are
   * recorded for it; the invalidation is broadcast and the body emitted.
   */
  lemma {:induction false} CreateCommit(r: Repo, listKeys: seq<string>, url: string, body: Value, resp: Response, now: int)
    requires Valid(r)
    ensures var s := StartCreateStep(r, listKeys, url, body);
      var f := CompleteWriteStep(s.0, s.1.id, Success(resp), now);
      var etag := EtagOf(resp.etagHeader);
      var named := resp.url.Some? && resp.url.value != "";
      && (forall k :: k in listKeys ==> CacheStore.Peek(f.0.store, k).None?)
      && (forall k :: k !in listKeys ==> CacheStore.Peek(f.0.store, k) == CacheStore.Peek(r.store, k))
      && (named && etag.Some? && etag.value != "" ==> f.0.store.urlEtags == r.store.urlEtags[resp.url.value := etag.value])
      && (named && resp.body != Undefined ==> f.0.store.urlBodies == r.store.urlBodies[resp.url.value := resp.body])
      && (!named ==> f.0.store.urlEtags == r.store.urlEtags && f.0.store.urlBodies == r.store.urlBodies)
      && f.0.outbox == r.outbox + CacheStore.Posted(r.channel, true, CacheStore.InvalidateMsg(listKeys))
      && Metrics.Count(f.0.counters, Metrics.OptimisticSuccess) == Metrics.Count(r.counters, Metrics.OptimisticSuccess) + 1
      && f.0.writes == r.writes
      && f.1 == Emitted(resp.body)
  {
    var s := StartCreateStep(r, listKeys, url, body);
    assert s.1.id !in r.writes;
    assert s.0.writes[s.1.id] == CreateOp(listKeys);
    assert s.0.writes - {s.1.id} == r.writes;
  }

  /**
   * Delete followed by success: the item and the list keys are gone, every
   * other entry is as it was, both invalidations are broadcast and nothing
   * (`undefined`) is emitted.
   */
  lemma {:induction false} DeleteCommit(r: Repo, itemKey: string, url: string, listKeys: seq<string>, resp: Response, now: int)
    requires Valid(r)
    ensures var s := StartDeleteStep(r, itemKey, url, listKeys);
      var f := CompleteWriteStep(s.0, s.1.id, Success(resp), now);
      && CacheStore.Peek(f.0.store, itemKey).None?
      && (forall k :: k in listKeys ==> CacheStore.Peek(f.0.store, k).None?)
      && (forall k :: k !in listKeys && k != itemKey ==> CacheStore.Peek(f.0.store, k) == CacheStore.Peek(r.store, k))
      && f.0.outbox == r.outbox + CacheStore.Posted(r.channel, true, CacheStore.InvalidateMsg([itemKey]))
                                + CacheStore.Posted(r.channel, true, CacheStore.InvalidateMsg(listKeys))
      && Metrics.Count(f.0.counters, Metrics.OptimisticSuccess) == Metrics.Count(r.counters, Metrics.OptimisticSuccess) + 1
      && f.0.writes == r.writes
      && f.1 == Emitted(Undefined)
  {
    var s := StartDeleteStep(r, itemKey, url, listKeys);
    assert s.1.id !in r.writes;
    assert s.0.writes[s.1.id] == DeleteOp(itemKey, CacheStore.Peek(r.store, itemKey), listKeys);
    assert s.0.writes - {s.1.id} == r.writes;
  }

  /** Optimistic delete followed by a refusal: the item is back as it was, with a new expiry. */
  lemma {:induction false} DeleteRollback(r: Repo, itemKey: string, url: string, listKeys: seq<string>, error: string, now: int)
    requires Valid(r)
    ensures var s := StartDeleteStep(r, itemKey, url, listKeys);
      var f := CompleteWriteStep(s.0, s.1.id, Failure(error), now);
      var snap := CacheStore.Peek(r.store, itemKey);
      && (snap.Some? ==> CacheStore.Peek(f.0.store, itemKey) == Some(CacheStore.Entry(snap.value.data, snap.value.etag, now + CacheStore.DEFAULT_TTL)))
      && (snap.None? ==> CacheStore.Peek(f.0.store, itemKey).None?)
      && Metrics.Count(f.0.counters, Metrics.Rollback) == Metrics.Count(r.counters, Metrics.Rollback) + 1
  {
    var s := StartDeleteStep(r, itemKey, url, listKeys);
    assert s.0.writes[s.1.id] == DeleteOp(itemKey, CacheStore.Peek(r.store, itemKey), listKeys);
  }

  /** A refused create leaves every cache entry as it was. */
  lemma {:induction false} CreateFailureKeepsCache(r: Repo, listKeys: seq<string>, url: string, body: Value, error: string, now: int)
    requires Valid(r)
    ensures var s := StartCreateStep(r, listKeys, url, body);
      var f := CompleteWriteStep(s.0, s.1.id, Failure(error), now);
      f.0.store == r.store && f.0.outbox == r.outbox
      && Metrics.Count(f.0.counters, Metrics.Rollback) == Metrics.Count(r.counters, Metrics.Rollback) + 1
  {
    var s := StartCreateStep(r, listKeys, url, body);
    assert s.0.writes[s.1.id].CreateOp?;
  }

  class Repository {
    const cache: CacheStore.Store
    /** `inflight`: the read shared under each dedup key. */
    var inflight: map<string, InFlight>
    /** The optimistic writes whose requests have not settled. */
    var writes: map<nat, PendingWrite>
    var nextId: nat

    function Abstract(): Repo
      reads this, cache, cache.metrics
    {
      Repo(cache.State(), cache.metrics.counters, cache.outbox, cache.channel, inflight, writes, nextId)
    }

    constructor (cache: CacheStore.Store)
      ensures this.cache == cache
      ensures inflight == map[] && writes == map[] && nextId == 0
      ensures Valid(Abstract())
    {
      this.cache := cache;
      inflight := map[];
      writes := map[];
      nextId := 0;
    }

    /** `getList` (kind `ListRead`) and `getItem` (kind `ItemRead`, with no params), up to the request. */
    method StartRead(kind: ReadKind, key: string, url: string, params: map<string, Value>, ttl: int, now: int) returns (s: ReadStart)
      modifies this, cache, cache.metrics
      ensures (Abstract(), s) == StartReadStep(old(Abstract()), kind, key, url, params, ttl, now)
    {
      var hit := cache.Get(key, now);
      if hit.Some? {
        return Cached(hit.value.data);
      }
      var dedupKey := DedupKey(key);
      if dedupKey in inflight {
        return Joined(inflight[dedupKey].id);
      }
      var entry := cache.PeekEntry(key);
      var ifNoneMatch := HeaderValue(EtagOfEntry(entry));
      inflight := inflight[dedupKey := InFlight(nextId, kind, key, url, ttl, entry)];
      s := Issued(nextId, url, params, ifNoneMatch);
      nextId := nextId + 1;
    }

    /** The response handler and `finalize` of the read in flight for `key`. */
    method CompleteRead(key: string, outcome: Outcome, now: int) returns (s: Settled)
      requires DedupKey(key) in inflight
      modifies this, cache
      ensures (Abstract(), s) == CompleteReadStep(old(Abstract()), key, outcome, now)
    {
      var dedupKey := DedupKey(key);
      var f := inflight[dedupKey];
      match outcome {
        case Success(resp) =>
          var etag := EtagOf(resp.etagHeader);
          var body := resp.body;
          if !Truthy(body) {
            var cached := cache.PeekEntry(f.key);
            if f.kind == ListRead {
              if Truthy(DataOf(cached)) {
                body := DataOf(cached);
              }
            } else {
              body := Coalesce(DataOf(cached), Null);
            }
          }
          if Present(body) {
            var kept := KeptEtag(etag, EtagOfEntry(f.entry));
            cache.Set(f.key, body, kept, f.ttl, now);
            cache.SetUrlMeta(resp.url.GetOr(f.url), kept, body);
          }
          s := Emitted(body);
        case Failure(e) =>
          s := Errored(e);
        case Cancelled =>
          s := Completed;
      }
      inflight := inflight - {dedupKey};
    }

    /** `optimisticCreate(listKeys, url, body)`, up to the request. */
    method StartCreate(listKeys: seq<string>, url: string, body: Value) returns (w: WriteStart)
      modifies this
      ensures (Abstract(), w) == StartCreateStep(old(Abstract()), listKeys, url, body)
    {
      w := WriteStart(nextId, "POST", url, None, body);
      writes := writes[nextId := CreateOp(listKeys)];
      nextId := nextId + 1;
    }

    /** `optimisticUpdate(itemKey, url, patch, listKeys)`, up to the request. */
    method StartUpdate(itemKey: string, url: string, patch: Value, listKeys: seq<string>) returns (w: WriteStart)
      modifies this, cache
      ensures (Abstract(), w) == StartUpdateStep(old(Abstract()), itemKey, url, patch, listKeys)
    {
      var snapshot := cache.PeekEntry(itemKey);
      if Truthy(DataOf(snapshot)) {
        cache.SetStale(itemKey, Spread(snapshot.value.data, patch), snapshot.value.etag);
      }
      var ifMatch := EtagOfEntry(snapshot);
      w := WriteStart(nextId, "PATCH", url, HeaderValue(ifMatch), patch);
      writes := writes[nextId := UpdateOp(itemKey, snapshot, ifMatch, listKeys)];
      nextId := nextId + 1;
    }

    /** `optimisticDelete(itemKey, url, listKeys)`, up to the request. */
    method StartDelete(itemKey: string, url: string, listKeys: seq<string>) returns (w: WriteStart)
      modifies this, cache
      ensures (Abstract(), w) == StartDeleteStep(old(Abstract()), itemKey, url, listKeys)
    {
      var snapshot := cache.PeekEntry(itemKey);
      cache.Invalidate([itemKey], true);
      w := WriteStart(nextId, "DELETE", url, None, Undefined);
      writes := writes[nextId := DeleteOp(itemKey, snapshot, listKeys)];
      nextId := nextId + 1;
    }

    /** The `map` and `catchError` handlers of write `id`. */
    method CompleteWrite(id: nat, outcome: Outcome, now: int) returns (s: Settled)
      requires id in writes
      modifies this, cache, cache.metrics
      ensures (Abstract(), s) == CompleteWriteStep(old(Abstract()), id, outcome, now)
    {
      var w := writes[id];
      writes := writes - {id};
      match outcome {
        case Cancelled =>
          s := Completed;
        case Failure(e) =>
          if !w.CreateOp? && w.snapshot.Some? {
            cache.Set(w.itemKey, w.snapshot.value.data, w.snapshot.value.etag, CacheStore.DEFAULT_TTL, now);
          }
          cache.metrics.Inc(Metrics.Rollback, 1);
          s := Errored(e);
        case Success(resp) =>
          var etag := EtagOf(resp.etagHeader);
          match w {
            case CreateOp(listKeys) =>
              cache.Invalidate(listKeys, true);
              if resp.url.Some? && resp.url.value != "" {
                cache.SetUrlMeta(resp.url.value, etag, resp.body);
              }
              s := Emitted(resp.body);
            case UpdateOp(itemKey, snapshot, ifMatch, listKeys) =>
              var body := Coalesce(resp.body, DataOf(snapshot));
              cache.Set(itemKey, body, KeptEtag(etag, ifMatch), CacheStore.DEFAULT_TTL, now);
              cache.Invalidate(listKeys, true);
              s := Emitted(body);
            case DeleteOp(itemKey, snapshot, listKeys) =>
              cache.Invalidate(listKeys, true);
              s := Emitted(Undefined);
          }
          cache.metrics.Inc(Metrics.OptimisticSuccess, 1);
      }
    }
  }
}
