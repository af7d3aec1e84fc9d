# angular-a20 logic core in Dafny

This project models the logic layers of the angular-a20 Angular client and proves properties of them. The client is a planning tool with a board of cards and links, a roadmap of PMOs (planned work items with keys such as `TS.3`), a domain tree and a PMO editor. Its UI is left aside; what remains is the following.

- **Data access.** The `CacheStore` is a map from key to entry with expiry, plus two side tables keyed by URL: the last ETag and the last body seen. `RepositoryBase` reads cache-first and shares one in-flight request per key. Its writes are optimistic: they patch the cache, then commit or roll back. The ETag interceptor makes GETs conditional with `If-None-Match` (section 13.1.2 of RFC 9110). It records `ETag` headers (section 8.8.3) and answers a `304 Not Modified` (section 15.4.5) with the stored body as a `200`. The cache-key builders of `GenericRepository` and `ItemsRepository` are modelled, and so is `MetricsService`.
- **Session and workspace.** `AuthService` keeps the session in local storage. A logout or a tenant switch empties the cache; a login only announces its tenant, and the tabs that receive a logout or tenant announcement empty their own cache. `WorkspaceService` is a three-state machine (`NotReady`, `Ready`, `ProjectSelected`) whose guards fail on the wrong state. It also computes the highest PMO key number of a kind.
- **Logging.** `LoggerService` and `Logger` filter messages by severity.
- **Board editor.** `BoardStateService` is a copy-on-write store of cards, links, selection and viewport. The board's geometry covers connection points, the nearest point and link curves. The board component covers hit testing, the selection box, resizing, arrow markers and its gesture state machine. The properties panel builds the patches it sends.
- **Roadmapper.** The text helpers convert CSS lengths, wrap words into rows and ellipsize rows that do not fit. The canvas lays out one node per PMO and one link per dependency. It also handles drag with grid snapping, panning and wheel zoom.
- **Domain tree and PMO editor.** The domain tree hangs domains and people under their locations, sorts every list by label and records which nodes are expanded. The PMO editor fills its form, edits estimations and links, generates keys for new PMOs and builds the record it saves.

## How the model is built

- **Pure code** becomes functions and lemmas.
- **State in place.** A component whose fields change in place is a class with those fields. Each of its methods is proved equal to a step function on a value of the whole state, for example `View() == RefreshStep(old(View()), …)`. The properties are proved about the step functions. The board component is the exception: its fifteen interaction fields are held as one record-valued field, `ui`, and each handler states the new record as an update of the old one.
- **Loops.** A loop in the source is a method with a loop, proved against a recursive specification function. This covers `splitsTextInRows`, `ellipsizeRows`, `buildNodesAndLinks`, `buildTree`, `getNextPmoKey`, `getAll` and the nearest-point search.
- **Time.** Time is an explicit `now` argument.
- **Requests.** Every HTTP request is two steps. A start step is the call. A completion step is taken later with a response, an error or a cancellation.
- **Cross-tab messages.** A `BroadcastChannel` or `localStorage` event is an `outbox` sequence, plus a method that receives a message.
- **Foreign calls.** These are parameters: `Date.now`, `crypto.randomUUID`, `encodeURIComponent`, `parseFloat`/`Number`, `JSON.stringify`/`JSON.parse`, canvas `measureText`, `localeCompare` (a collation key `rank`) and number formatting.
- **Untyped values.** Untyped JavaScript values (`any`) are `Json.Value`. Its truthiness, nullish coalescing and object spread are written out.

The model reproduces these defects of the source rather than repairing them. Each is proved as a property of the model. For the first three, a corrected definition sits beside the one as written, and the intended property is proved about it (see "## Findings"). The rest of the model keeps the behaviour as written, because it describes the program as it is.

- **Dead conditional-GET header.** A read that misses the cache evicts the stale entry before it looks for an ETag. So the `If-None-Match` header `RepositoryBase` prepares itself is never set (`RepositoryBase.StartReadStep`); only the ETag interceptor's per-URL table can still make the request conditional. The corrected start, `RepositoryBase.CorrectedStartReadStep`, sends a stale entry's ETag (`RepositoryBase.StaleEntryRevalidates`).
- **`getAll` never completes when there is a second page.** The continuation call ignores the cursor and asks for the first page's key again (`GenericRepository.NextPageIgnoresCursor`). That key is now a fresh cache hit, so the first page comes back (`GenericRepository.ContinuationRepeatsFirstPage`). It still announces a next page, so `expand` repeats forever and `reduce` never emits (`GenericRepository.AsWrittenGetAllNeverEnds`). The corrected call follows the cursor (`GenericRepository.CorrectedNextPageFollowsCursor`).
- **Duplicate domain locations.** Two domains at one location leave only the second in the index, and it is listed twice (`DomainTree.DuplicateLocationShownTwice`).
- **Empty domain tree.** Loading an empty tree fails when it expands the first root, which does not exist (`DomainTree.DomainTreeComponent.OnLoaded`).
- **`norm` is not idempotent.** `DomainTree.NormNotIdempotent` proves it.
- **`commitReconnect`.** It accepts a target card that does not exist (`BoardStore.ReconnectToMissingCard`).
- **`ellipsizeRows` on an overflowing first row.** It has no previous row to shorten and throws (`TextUtils.FirstRowOverflowFails`). The guarded version keeps no row instead (`TextUtils.CorrectedEllipsizedRowsFit`).
- **Link targets without a key.** A link target carries no key, and the PMO editor never writes one. So the roadmapper resolves every saved dependency to `"undefined"` and draws none of them, unless some PMO is filed under the key `"undefined"` of its project (`<project>::undefined`) (`Roadmapper.KeylessTargetUnresolved`, `PmoEditor.SavedLinksUnresolvedOnRoadmap`).
- **Project resource path.** With no project selected, the path is the text `undefined` (`Workspace.ProjectResourcePath`).

## Model

| member | source | states |
|---|---|---|
| Auth.Restore | src/app/core/auth/auth.service.ts:86-94 | no session when nothing or an empty text is stored; otherwise whatever parsing the stored text yields (a parse failure is no session) |
| Auth.Stored | src/app/core/auth/auth.service.ts:87 | the stored text exactly when the key is present |
| Auth.LoginSession | src/app/core/auth/auth.service.ts:57-59 | the session login creates carries the given email and tenant, no token and the current time; the password plays no part |
| Auth.SwitchedSession | src/app/core/auth/auth.service.ts:75-78 | no session stays no session; otherwise only the tenant changes |
| Auth.Announced | src/app/core/auth/auth.service.ts:100-102 | a message is posted exactly when the tab has a broadcast channel |
| Auth.LoginIsRestored | src/app/core/auth/auth.service.ts:57-61 | after a login, restoring from storage yields exactly the logged-in session, provided JSON round-trips |
| Auth.LogoutIsRestored | src/app/core/auth/auth.service.ts:66-72 | after a logout, restoring from storage yields no session |
| Auth.AuthService.constructor | src/app/core/auth/auth.service.ts:18-47 | the service starts with the restored session, an empty outbox and the storage it was given |
| Auth.AuthService.IsAuthenticated | src/app/core/auth/auth.service.ts:53-55 | true iff there is a session |
| Auth.AuthService.Login | src/app/core/auth/auth.service.ts:57-64 | session, stored session text and the tenant-change announcement after a login |
| Auth.AuthService.ClearCaches | src/app/core/auth/auth.service.ts:96-98 | the cache is emptied and the clear is broadcast with reason auth-change |
| Auth.AuthService.Logout | src/app/core/auth/auth.service.ts:66-73 | no session, empty cache, session removed from storage, logout stamp stored, logout announced |
| Auth.AuthService.SwitchTenant | src/app/core/auth/auth.service.ts:75-84 | nothing without a session; otherwise the tenant changes, is stored, the cache is emptied and the change announced |
| Auth.AuthService.OnSignal | src/app/core/auth/auth.service.ts:25-45 | a logout signal from another tab ends the session and empties the cache; a tenant signal only empties the cache; other signals change nothing |
| Metrics.NameInjective | src/app/utils/metrics.service.ts:3-8 | distinct metric keys have distinct names, so a snapshot loses no counter |
| Metrics.Count | src/app/utils/metrics.service.ts:18-20 | the stored count for a key present, 0 for any other |
| Metrics.Bumped | src/app/utils/metrics.service.ts:14-16 | after inc only the incremented key moves, by exactly the step, and the key becomes present |
| Metrics.MetricsService.constructor | src/app/utils/metrics.service.ts:12 | a new service has no counters and every count reads 0 |
| Metrics.MetricsService.Inc | src/app/utils/metrics.service.ts:14-16 | the counters become the bumped counters |
| Metrics.MetricsService.Get | src/app/utils/metrics.service.ts:18-20 | the stored count, or 0 for a key never incremented |
| Metrics.MetricsService.Snapshot | src/app/utils/metrics.service.ts:22-26 | a record with exactly the incremented counters under their names and values |
| Metrics.MetricsService.Reset | src/app/utils/metrics.service.ts:28-30 | no counters afterwards; every count reads 0 |
| Logging.Rank | src/app/core/logger/logger.ts:2-7 | the enum's numeric value, from 0 to 3 |
| Logging.RankOrder | src/app/core/logger/logger.ts:2-7 | DEBUG < INFO < WARN < ERROR |
| Logging.RankInjective | src/app/core/logger/logger.ts:2-7 | distinct severities have distinct numeric values |
| Logging.EffectiveLevel | src/app/core/logger/logger.service.ts:25 | the level applied is the requested level lowered to the global one: at most both, and one of them |
| Logging.ServiceEmitsIff | src/app/core/logger/logger.service.ts:23-26 | an enabled service writes a message iff its severity reaches the requested level or the global level |
| Logging.ErrorsAlwaysEmitted | src/app/core/logger/logger.service.ts:23-26 | an enabled service writes every error whatever the levels |
| Logging.LowerGlobalEmitsMore | src/app/core/logger/logger.service.ts:25-26 | lowering the global level never silences a message |
| Logging.LoggerService.constructor | src/app/core/logger/logger.service.ts:9-12 | a new service is enabled at level DEBUG |
| Logging.LoggerService.Configure | src/app/core/logger/logger.service.ts:18-21 | sets the enabled flag and the global level |
| Logging.LoggerService.Log | src/app/core/logger/logger.service.ts:23-42 | writes exactly one line with the severity, component, method and message when the service emits it, and nothing otherwise |
| Logging.LoggerService.CreateLocalLoggerInstance | src/app/core/logger/logger.service.ts:14-16 | a new logger with the service's enabled flag, the given level and name, bound to this service |
| Logging.Logger.constructor | src/app/core/logger/logger.ts:30-35 | the logger holds the given flag, level, service and component name |
| Logging.Logger.AppendComponentName | src/app/core/logger/logger.ts:21-23 | the component name gains "::" and the sub-name; nothing else changes |
| Logging.Logger.Configure | src/app/core/logger/logger.ts:25-28 | sets the logger's own flag and default level |
| Logging.Logger.Log | src/app/core/logger/logger.ts:50-58 | nothing when disabled; through the service with the logger's default level when it has one; otherwise one unfiltered console line |
| Logging.Logger.Debug | src/app/core/logger/logger.ts:37-39 | a DEBUG line is written iff the logger is enabled and the service (if any) emits it |
| Logging.Logger.Info | src/app/core/logger/logger.ts:40-42 | an INFO line is written iff the logger is enabled and the service (if any) emits it |
| Logging.Logger.Warn | src/app/core/logger/logger.ts:43-45 | a WARN line is written iff the logger is enabled and the service (if any) emits it |
| Logging.Logger.Err | src/app/core/logger/logger.ts:46-48 | an ERROR line is written iff the logger is enabled and the service (if any) emits it |
| CacheStore.Peek | src/app/core/infra/repo/cache-store.ts:53-56 | the stored entry whatever its expiry, and none exactly when the key is absent |
| CacheStore.Lookup | src/app/core/infra/repo/cache-store.ts:36-51 | an entry exactly when the key is stored and has not expired at the given time, and then the stored one |
| CacheStore.LookupMetric | src/app/core/infra/repo/cache-store.ts:36-51 | a hit is counted iff the lookup finds an entry, a miss iff it does not |
| CacheStore.Evict | src/app/core/infra/repo/cache-store.ts:43-47 | an expired entry is deleted; a fresh one stays; no other key and no URL metadata changes |
| CacheStore.Stored | src/app/core/infra/repo/cache-store.ts:58-60 | the key maps to the data, etag and now plus the TTL, which a lookup within a positive TTL finds; no other key changes |
| CacheStore.StoredStale | src/app/core/infra/repo/cache-store.ts:62-64 | the entry is stored with expiry 0, so no lookup at a non-negative time finds it and the lookup evicts it; no other key changes |
| CacheStore.Invalidated | src/app/core/infra/repo/cache-store.ts:66-69 | exactly the listed keys are gone; everything else is unchanged |
| CacheStore.WithUrlMeta | src/app/core/infra/repo/cache-store.ts:79-82 | a non-empty etag and a defined body are each recorded for the URL; an absent part leaves its map alone |
| CacheStore.Posted | src/app/core/infra/repo/cache-store.ts:66-76 | a message is posted iff the browser has a channel and broadcasting was asked for |
| CacheStore.Store.constructor | src/app/core/infra/repo/cache-store.ts:15-34 | the store starts with three empty maps and an empty outbox |
| CacheStore.Store.Get | src/app/core/infra/repo/cache-store.ts:36-51 | returns the lookup, evicts an expired entry and counts exactly one hit or miss |
| CacheStore.Store.PeekEntry | src/app/core/infra/repo/cache-store.ts:53-56 | returns the stored entry whatever its expiry and changes nothing |
| CacheStore.Store.Set | src/app/core/infra/repo/cache-store.ts:58-60 | the new state is the stored state; nothing is posted |
| CacheStore.Store.SetStale | src/app/core/infra/repo/cache-store.ts:62-64 | the new state is the stale-stored state; nothing is posted |
| CacheStore.Store.Invalidate | src/app/core/infra/repo/cache-store.ts:66-69 | deletes the keys one by one and announces them when asked to |
| CacheStore.Store.ClearAll | src/app/core/infra/repo/cache-store.ts:71-76 | all three maps become empty and the clear is announced when asked to |
| CacheStore.Store.SetUrlMeta | src/app/core/infra/repo/cache-store.ts:79-82 | the new state is the state with the URL metadata written |
| CacheStore.Store.GetUrlEtag | src/app/core/infra/repo/cache-store.ts:83-85 | the recorded etag of the URL, none when absent |
| CacheStore.Store.GetUrlBody | src/app/core/infra/repo/cache-store.ts:86-88 | the recorded body of the URL, undefined when absent |
| CacheStore.Store.OnMessage | src/app/core/infra/repo/cache-store.ts:24-32 | an invalidate or clear from another tab is replayed without re-broadcasting; anything else changes nothing |
| Http.EtagOf | src/app/core/infra/http/etag.interceptor.ts:23 | a response's ETag is its header value when non-empty; an empty or missing header gives none |
| EtagInterceptor.Conditional | src/app/core/infra/http/etag.interceptor.ts:12-18 | only a GET with a non-empty stored ETag gains an If-None-Match header carrying it; every other request is forwarded unchanged |
| EtagInterceptor.Rewritten | src/app/core/infra/http/etag.interceptor.ts:27-35 | a 304 with a recorded body becomes a 200 carrying that body; every other event passes unchanged |
| EtagInterceptor.Recorded | src/app/core/infra/http/etag.interceptor.ts:22-26 | a response's non-empty ETag is recorded for the URL; bodies and cache entries are untouched |
| EtagInterceptor.Revalidation | src/app/core/infra/http/etag.interceptor.ts:12-33 | once an ETag and a body are recorded for a URL, the next GET carries the ETag and a 304 for it is answered with the body as a 200 |
| EtagInterceptor.OnRequest | src/app/core/infra/http/etag.interceptor.ts:12-18 | the forwarded request is the conditional request for the stored ETag |
| EtagInterceptor.OnEvent | src/app/core/infra/http/etag.interceptor.ts:20-37 | records the ETag, counts one etag_304 for a 304 and nothing otherwise, and returns the rewritten event |
| RepositoryBase.DedupKeyInjective | src/app/core/infra/repo/repository-base.ts:34 | distinct cache keys have distinct dedup keys, so reads of different keys never share a request |
| RepositoryBase.KeptEtag | src/app/core/infra/repo/repository-base.ts:55 | the response's ETag when it has one, else the ETag remembered before |
| RepositoryBase.HeaderValue | src/app/core/infra/repo/repository-base.ts:42 | a conditional header is sent only with a non-empty value, and then that value |
| RepositoryBase.ReadBody | src/app/core/infra/repo/repository-base.ts:47-59 | a truthy response body is kept; otherwise truthy cached data; an item read falls back to present cached data or null and never yields undefined |
| RepositoryBase.ReadBodyPathsDiffer | src/app/core/infra/repo/repository-base.ts:49-53 | the list and item reads pick different bodies only when the response body and the cached data are both falsy, and the item read then takes the present data or null |
| RepositoryBase.AfterRead | src/app/core/infra/repo/repository-base.ts:47-59 | the handed-on body is the read body; a non-null body is stored under the key with the kept ETag and TTL and recorded for the response URL, else the request URL; a null body writes nothing |
| RepositoryBase.StartReadStep | src/app/core/infra/repo/repository-base.ts:26-45 | a fresh entry is answered from the cache and counted as a hit; otherwise a miss is counted, a request in flight for the key is joined, or a new one is issued and registered; the repository never sets its own If-None-Match header (the interceptor may still add one from its per-URL table) |
| RepositoryBase.CorrectedStartReadStep | src/app/core/infra/repo/repository-base.ts:34-42 | as the read start, except that the entry is peeked before the expired one is evicted: a new request carries that entry's non-empty ETag and remembers the entry |
| RepositoryBase.StaleEntryRevalidates | src/app/core/infra/repo/repository-base.ts:38-42 | for an expired entry with a non-empty ETag, the corrected start sends it as If-None-Match, while the start as written sends none |
| RepositoryBase.CompleteReadStep | src/app/core/infra/repo/repository-base.ts:47-63 | the in-flight entry is always dropped; a response goes through AfterRead, an error is passed on, a cancellation completes without touching the cache |
| RepositoryBase.StartCreateStep | src/app/core/infra/repo/repository-base.ts:104-110 | a POST with a fresh id is sent; the cache does not change |
| RepositoryBase.StartUpdateStep | src/app/core/infra/repo/repository-base.ts:131-146 | an entry with truthy data is replaced, already stale, by the patched data under its ETag; the snapshot's non-empty ETag is sent as If-Match |
| RepositoryBase.StartDeleteStep | src/app/core/infra/repo/repository-base.ts:169-178 | the item key is invalidated and broadcast before the DELETE is sent |
| RepositoryBase.Restored | src/app/core/infra/repo/repository-base.ts:157-161 | a snapshot is put back with its data and ETag and the default TTL; no snapshot, no change |
| RepositoryBase.ListsInvalidated | src/app/core/infra/repo/repository-base.ts:115 | exactly the list keys are invalidated and broadcast |
| RepositoryBase.CompleteWriteStep | src/app/core/infra/repo/repository-base.ts:110-190 | success counts optimistic_success and broadcasts the list invalidation: a create invalidates the lists, records the response URL's ETag and body when it names a URL, and emits the response body; an update stores the server's body (else the snapshot's data) under the kept ETag and then invalidates the lists; a delete invalidates the lists and emits undefined. Failure counts rollback and restores the snapshot (a create keeps the cache); cancellation only forgets the write |
| RepositoryBase.CreateCommit | src/app/core/infra/repo/repository-base.ts:104-129 | a create that succeeds empties the list keys, keeps every other entry, records the ETag and body for the response URL when there is one, broadcasts the invalidation, counts one optimistic_success and emits the response body |
| RepositoryBase.DeleteCommit | src/app/core/infra/repo/repository-base.ts:169-190 | a delete that succeeds leaves the item and the lists empty, keeps every other entry, broadcasts the item and then the list invalidations, counts one optimistic_success and emits undefined |
| RepositoryBase.StartReadPreservesValid | src/app/core/infra/repo/repository-base.ts:26-67 | starting a read keeps request ids fresh and each in-flight read under its own dedup key |
| RepositoryBase.CompleteReadPreservesValid | src/app/core/infra/repo/repository-base.ts:47-63 | settling a read keeps that invariant |
| RepositoryBase.StartWritePreservesValid | src/app/core/infra/repo/repository-base.ts:104-194 | starting any write keeps that invariant |
| RepositoryBase.CompleteWritePreservesValid | src/app/core/infra/repo/repository-base.ts:104-194 | settling any write keeps that invariant |
| RepositoryBase.WriteIdsFresh | src/app/core/infra/repo/repository-base.ts:104-194 | a new write never reuses the id of a write still pending |
| RepositoryBase.SecondReadJoins | src/app/core/infra/repo/repository-base.ts:34-36 | while a read for a key is in flight, any later list or item read of that key shares it |
| RepositoryBase.UpdateRollback | src/app/core/infra/repo/repository-base.ts:131-162 | an optimistic update that the server refuses leaves the snapshot back in the cache with a new expiry and counts one rollback |
| RepositoryBase.UpdateCommit | src/app/core/infra/repo/repository-base.ts:146-156 | an optimistic update that succeeds leaves the server's body, else the snapshot's data, under the new ETag, else the If-Match one, fresh, and the list keys gone |
| RepositoryBase.DeleteRollback | src/app/core/infra/repo/repository-base.ts:169-188 | an optimistic delete that the server refuses puts the item back as it was, with a new expiry |
| RepositoryBase.CreateFailureKeepsCache | src/app/core/infra/repo/repository-base.ts:121-124 | a refused create leaves every cache entry as it was |
| RepositoryBase.Repository.constructor | src/app/core/infra/repo/repository-base.ts:9-24 | a new repository has no reads or writes pending and satisfies the invariant |
| RepositoryBase.Repository.StartRead | src/app/core/infra/repo/repository-base.ts:26-102 | performs the start-read step on the live store and counters |
| RepositoryBase.Repository.CompleteRead | src/app/core/infra/repo/repository-base.ts:47-63 | performs the complete-read step on the live store |
| RepositoryBase.Repository.StartCreate | src/app/core/infra/repo/repository-base.ts:104-110 | performs the start-create step |
| RepositoryBase.Repository.StartUpdate | src/app/core/infra/repo/repository-base.ts:131-146 | performs the start-update step on the live store |
| RepositoryBase.Repository.StartDelete | src/app/core/infra/repo/repository-base.ts:169-178 | performs the start-delete step on the live store |
| RepositoryBase.Repository.CompleteWrite | src/app/core/infra/repo/repository-base.ts:110-191 | performs the complete-write step on the live store and counters |
| GenericRepository.Pairs | src/app/core/infra/repo/generic.repository.ts:29 | one "k=enc(v)" pair per key, in the given order |
| GenericRepository.SortedKeysInParams | src/app/core/infra/repo/generic.repository.ts:27-28 | every key of the sorted key list is a key of the parameter record |
| GenericRepository.BuildListKey | src/app/core/infra/repo/generic.repository.ts:25-32 | the base list key alone without parameters; otherwise the base, "?" and the pairs in ascending key order joined by "&" |
| GenericRepository.ListKeyIgnoresInsertionOrder | src/app/core/infra/repo/generic.repository.ts:25-32 | two insertion orders of the same parameter keys give the same list key |
| GenericRepository.ListKeyQuery | src/app/core/infra/repo/generic.repository.ts:27-31 | the query part is the pairs of the sorted keys joined by "&" |
| GenericRepository.ItemKey | src/app/core/infra/repo/generic.repository.ts:34-36 | the list key, a colon and the id |
| GenericRepository.PageItems | src/app/core/infra/repo/generic.repository.ts:47-48 | an array page contributes its items, a missing one nothing |
| GenericRepository.CollectedPrefix | src/app/core/infra/repo/generic.repository.ts:42-48 | while every page announces a next one, the result is their items in order followed by the rest |
| GenericRepository.SinglePage | src/app/core/infra/repo/generic.repository.ts:42-48 | a first page without a next gives exactly its items |
| GenericRepository.GetAll | src/app/core/infra/repo/generic.repository.ts:38-50 | concatenates the items of the pages received, asking for more while has_next |
| GenericRepository.NextPageCall | src/app/core/infra/repo/generic.repository.ts:42-45 | the call for the next page uses the original key and parameters |
| GenericRepository.NextPageIgnoresCursor | src/app/core/infra/repo/generic.repository.ts:43-45 | whatever page came back, the call for the next page is the same |
| GenericRepository.AsWrittenGetAllNeverEnds | src/app/core/infra/repo/generic.repository.ts:42-48 | with a first page that announces more and the first page served again each round, no round reaches a last page and each adds the first page's items once more |
| GenericRepository.CorrectedNextPageCall | src/app/core/infra/repo/generic.repository.ts:44-45 | the intended next call uses the params with cursor set to the page's next_cursor, all other params kept |
| GenericRepository.ListKeysDiffer | src/app/core/infra/repo/generic.repository.ts:25-31 | two records over the same names whose values for one name encode differently get different list keys, when no name or encoded value holds & |
| GenericRepository.CorrectedNextPageFollowsCursor | src/app/core/infra/repo/generic.repository.ts:44-45 | pages naming differently-encoding cursors lead to corrected next calls with different params and different cache keys |
| GenericRepository.ContinuationRepeatsFirstPage | src/app/core/infra/repo/generic.repository.ts:38-46 | once the first page is cached, the call for the "next" page is a fresh cache hit that yields the first page again |
| ItemsRepository.ListKey | src/app/core/infra/repo/items.repository.ts:25-32 | "list:items" without parameters; otherwise a longer key that starts with "list:items" |
| ItemsRepository.ItemKey | src/app/core/infra/repo/items.repository.ts:34-36 | "item:items:" followed by the id |
| ItemsRepository.ItemUrl | src/app/core/infra/repo/items.repository.ts:82 | the base URL, a slash and the id |
| ItemsRepository.ItemKeyNotListKey | src/app/core/infra/repo/items.repository.ts:25-36 | an item key never equals a list key, so an item write never overwrites a cached list |
| ItemsRepository.ItemKeyInjective | src/app/core/infra/repo/items.repository.ts:34-36 | different ids have different item keys |
| ItemsRepository.WatchRefetchIffMiss | src/app/core/infra/repo/items.repository.ts:47-50 | the watch filter re-reads exactly when a read would miss the cache |
| ItemsRepository.ParameterisedListSurvivesWrite | src/app/core/infra/repo/items.repository.ts:74-92 | a write invalidates only "list:items": a list cached under parameters stays fresh until its own TTL runs out |
| ItemsRepository.Items.constructor | src/app/core/infra/repo/items.repository.ts:21-23 | the repository works on the given base repository |
| ItemsRepository.Items.GetItems | src/app/core/infra/repo/items.repository.ts:38-40 | a list read of the list key at the base URL with the default TTL |
| ItemsRepository.Items.OnTriggerItems | src/app/core/infra/repo/items.repository.ts:42-54 | one trigger re-reads the list iff its entry is missing or expired |
| ItemsRepository.Items.ReadItem | src/app/core/infra/repo/items.repository.ts:56-58 | an item read of the item key at the item URL with the default TTL |
| ItemsRepository.Items.OnTriggerItem | src/app/core/infra/repo/items.repository.ts:60-72 | one trigger re-reads the item iff its entry is missing or expired |
| ItemsRepository.Items.CreateItem | src/app/core/infra/repo/items.repository.ts:74-78 | a create at the base URL that invalidates "list:items" |
| ItemsRepository.Items.UpdateItem | src/app/core/infra/repo/items.repository.ts:80-85 | an optimistic update of the item key at the item URL that invalidates "list:items" |
| ItemsRepository.Items.DeleteItem | src/app/core/infra/repo/items.repository.ts:87-92 | an optimistic delete of the item key at the item URL that invalidates "list:items" |
| Workspace.Permits | src/app/core/workspace/workspace.service.ts:123-136 | a fetch passes its guard only when the workspace is not "not ready"; a project fetch (PMOs, layouts) needs a selected project |
| Workspace.QueryPath | src/app/core/workspace/workspace.service.ts:138-256 | items, PMOs and layouts ask for the project's location; projects, domains and people ask for "/" |
| Workspace.FindPath | src/app/core/workspace/workspace.service.ts:86 | the path of a resource path of the given type, none iff there is no such type |
| Workspace.ProjectResourcePath | src/app/core/workspace/workspace.service.ts:85-87 | a project's non-empty location whatever the type; without a project the text "undefined"; otherwise the text of the found path |
| Workspace.KeyNumber | src/app/core/workspace/workspace.service.ts:266-267 | a key without a dot has no number |
| Workspace.Numbered | src/app/core/workspace/workspace.service.ts:263-267 | a PMO of another kind contributes no number |
| Workspace.MaxStep | src/app/core/workspace/workspace.service.ts:268-270 | a number at least the running maximum replaces it; otherwise the maximum stays |
| Workspace.MaxPmoKeyIsMax | src/app/core/workspace/workspace.service.ts:258-281 | the result is at least 0, at least every key number of the kind, and either 0 or one of those numbers |
| Workspace.MaxPmoKey | src/app/core/workspace/workspace.service.ts:258-281 | never below 0, the value the search starts from; that it is the largest key number of the kind is MaxPmoKeyIsMax |
| Workspace.MaxPmoKeyIgnoresOtherKinds | src/app/core/workspace/workspace.service.ts:264 | appending a PMO of another kind leaves the maximum unchanged |
| Workspace.InitStep | src/app/core/workspace/workspace.service.ts:100-109 | an empty tenant gives "not ready" and false; otherwise "ready" for the tenant and true; the tenant-project invariant is kept |
| Workspace.SelectStep | src/app/core/workspace/workspace.service.ts:111-121 | rejected by the guard when not ready; an empty project id gives false and no change; otherwise the project is selected and true |
| Workspace.DeInitStep | src/app/core/workspace/workspace.service.ts:93-98 | not ready, no tenant, no project |
| Workspace.ReInit | src/app/core/workspace/workspace.service.ts:93-109 | from any state, deInit then init with a non-empty tenant gives a ready workspace for that tenant with no project |
| Workspace.WorkspaceService.constructor | src/app/core/workspace/workspace.service.ts:49-60 | a new workspace is not ready with nothing broadcast |
| Workspace.WorkspaceService.DeInit | src/app/core/workspace/workspace.service.ts:93-98 | performs deInit and broadcasts "not ready" |
| Workspace.WorkspaceService.Init | src/app/core/workspace/workspace.service.ts:100-109 | performs init and broadcasts the new status in both cases |
| Workspace.WorkspaceService.IsReady | src/app/core/workspace/workspace.service.ts:123-129 | true when ready or with a project selected; the guard error otherwise |
| Workspace.WorkspaceService.GuardProjectOperationOk | src/app/core/workspace/workspace.service.ts:131-136 | true with a project selected; the guard error otherwise |
| Workspace.WorkspaceService.SelectProject | src/app/core/workspace/workspace.service.ts:111-121 | performs the select step and broadcasts only when a project was selected |
| Workspace.WorkspaceService.OnMessage | src/app/core/workspace/workspace.service.ts:62-75 | a project change carrying a project selects it; every other message changes nothing |
| Workspace.WorkspaceService.Fetch | src/app/core/workspace/workspace.service.ts:138-256 | the guard decides; when it passes, the tenant (or "") and the path parameter are what getAll receives |
| Workspace.WorkspaceService.OnFetchError | src/app/core/workspace/workspace.service.ts:145-150 | a 401 is broadcast as an authentication failure; nothing else changes |
| Workspace.WorkspaceService.GetProjectResourcePath | src/app/core/workspace/workspace.service.ts:85-87 | returns the project resource path of the current project |
| Workspace.WorkspaceService.GetNextPmoKey | src/app/core/workspace/workspace.service.ts:258-281 | rejected iff no project is selected; otherwise the loop yields the largest key number of the kind, from 0 |
| PmoModels.KindName | src/app/core/models/pmo.ts:38-45 | the two-letter name of the kind, as written at the head of a PMO key |
| BoardModels.ClampZoom | src/app/features/tools/board/services/board-state.service.ts:138 | the zoom clamped to [0.1, 8]: unchanged inside, the nearer bound outside |
| BoardGeometry.DefaultConnectionPoints | src/app/features/tools/board/services/board-geometry.ts:5-12 | four circle points with hot radius 1.2 named top, right, bottom and left |
| BoardGeometry.ConnectionPoints | src/app/features/tools/board/services/board-geometry.ts:15-17 | the card's own points when it declares a non-empty list, else the defaults; never empty |
| BoardGeometry.ToCardAbsoluteUnits | src/app/features/tools/board/services/board-geometry.ts:19-24 | a point with relative coordinates in [0, 1] lies on the card's rectangle; relative 0 is the card's edge |
| BoardGeometry.Dist2 | src/app/features/tools/board/services/board-geometry.ts:31-34 | the squared distance is never negative |
| BoardGeometry.NearestIndex | src/app/features/tools/board/services/board-geometry.ts:26-38 | after the first n points the loop holds a nearest one, the first of equally near ones |
| BoardGeometry.NearestConnectionPoint | src/app/features/tools/board/services/board-geometry.ts:26-38 | returns one of the card's points, no farther from the pointer than any other |
| BoardGeometry.DominantDirection | src/app/features/tools/board/services/board-geometry.ts:40-45 | left iff relX <= 0.001; right iff not left and relX >= 0.999; up iff neither and relY <= 0.001; else down |
| BoardGeometry.DefaultDirections | src/app/features/tools/board/services/board-geometry.ts:5-45 | each default point leads out of its own side |
| BoardGeometry.BezierForEndpoints | src/app/features/tools/board/services/board-geometry.ts:47-71 | the ends stay put and each handle moves only along its end's direction, by 0.4 of the span |
| BoardGeometry.CubicPoint | src/app/features/tools/board/services/board-geometry.ts:73-85 | the curve starts at p0 at t = 0 and ends at p3 at t = 1 |
| BoardGeometry.WeightsSumToOne | src/app/features/tools/board/services/board-geometry.ts:74-80 | the four Bernstein weights sum to one |
| BoardGeometry.WeightsNonNegative | src/app/features/tools/board/services/board-geometry.ts:74-80 | on [0, 1] no weight is negative, so the curve stays in the box of its points |
| BoardGeometry.ConstantCurve | src/app/features/tools/board/services/board-geometry.ts:73-85 | a curve whose four points coincide is that point throughout |
| BoardGeometry.BezierPathD | src/app/features/tools/board/services/board-geometry.ts:87-89 | one moveto followed by one curveto, with the coordinates in order; the path starts with "M " |
| BoardGeometry.BezierPathDWords | src/app/features/tools/board/services/board-geometry.ts:87-89 | when the number format writes no space, splitting the path at spaces gives exactly M, the start point, C, the three remaining points, with a comma after the first two |
| BoardGeometry.BezierPathDInjective | src/app/features/tools/board/services/board-geometry.ts:87-89 | with a space-free, injective number format, equal paths come from equal curves, so the path data loses nothing |
| BoardStore.SameIdKeepsIds | src/app/features/tools/board/services/board-state.service.ts:79 | replacing a card by one with the same id keeps the set of card ids |
| BoardStore.PatchedCard | src/app/features/tools/board/services/board-state.service.ts:79 | a patched card keeps its id, board and connection points; an empty patch changes nothing |
| BoardStore.PatchedLink | src/app/features/tools/board/services/board-state.service.ts:199 | a patched link keeps its id and ends; the style and label are the patch's when given, else the old ones |
| BoardStore.CardById | src/app/features/tools/board/services/board-state.service.ts:151 | a found card is on the board with that id; none iff no card has that id |
| BoardStore.AddCardAtStep | src/app/features/tools/board/services/board-state.service.ts:61-74 | exactly one card is appended, at the requested place, with the defaulted size, title, body, colour and shape and no styles; it becomes the only selected card; links and viewport are unchanged |
| BoardStore.AddedCardIsFound | src/app/features/tools/board/services/board-state.service.ts:61-74 | with a fresh id, looking the new card up finds it at the requested place with the minimum size |
| BoardStore.UpdateCardStep | src/app/features/tools/board/services/board-state.service.ts:76-81 | the cards become the old cards with the first card of that id replaced by its patch; without such a card nothing changes; ids, links, selection and viewport are kept |
| BoardStore.ResizeCardStep | src/app/features/tools/board/services/board-state.service.ts:130-134 | the first card of that id moves to (x, y) and takes width and height each raised to at least the minimum size, the rest of it unchanged; without such a card nothing changes; nothing but the cards changes |
| BoardStore.ResizeKeepsMinimum | src/app/features/tools/board/services/board-state.service.ts:130-134 | after a resize every card keeps at least the minimum size, if all had it before |
| BoardStore.MoveCards | src/app/features/tools/board/services/board-state.service.ts:122-123 | exactly the selected cards shift by the offset; the others stay |
| BoardStore.MoveSelectedStep | src/app/features/tools/board/services/board-state.service.ts:119-125 | a zero move changes nothing; otherwise exactly the selected cards shift and nothing but the cards changes |
| BoardStore.MoveAndBack | src/app/features/tools/board/services/board-state.service.ts:119-125 | moving by an offset and back by its negation restores the board |
| BoardStore.RemoveSelectedStep | src/app/features/tools/board/services/board-state.service.ts:83-102 | the unselected cards and the surviving links, each in their original order; selected links and links touching a removed card go; both selections are emptied |
| BoardStore.RemoveSelectedLeavesNoDanglingLinks | src/app/features/tools/board/services/board-state.service.ts:83-102 | after a removal no link touches a missing card, provided none did before |
| BoardStore.SetSelectionStep | src/app/features/tools/board/services/board-state.service.ts:105-107 | the selected cards are exactly the given ids, each once; links are unselected |
| BoardStore.ClearSelectionStep | src/app/features/tools/board/services/board-state.service.ts:108 | nothing is selected; cards and links are unchanged |
| BoardStore.ToggleSelectionStep | src/app/features/tools/board/services/board-state.service.ts:109-116 | the card's membership flips, no other id changes, each id appears once, links are unselected |
| BoardStore.SetLinkSelectionStep | src/app/features/tools/board/services/board-state.service.ts:225-230 | the selected links are exactly the given ids, each once; cards are unselected |
| BoardStore.ToggleLinkSelectionStep | src/app/features/tools/board/services/board-state.service.ts:232-239 | the link's membership flips, no other id changes, each id appears once, cards are unselected |
| BoardStore.SetZoomStep | src/app/features/tools/board/services/board-state.service.ts:137-140 | the zoom is clamped to [0.1, 8] and an in-range zoom is kept exactly; nothing else changes |
| BoardStore.SetPanStep | src/app/features/tools/board/services/board-state.service.ts:142-144 | the offsets are the given ones; the zoom and everything else stay |
| BoardStore.PanByStep | src/app/features/tools/board/services/board-state.service.ts:146-148 | the offsets grow by exactly the given amounts; nothing else changes |
| BoardStore.PanByAdds | src/app/features/tools/board/services/board-state.service.ts:146-148 | two pans equal one pan by their sum |
| BoardStore.DefaultedLinkStyle | src/app/features/tools/board/services/board-state.service.ts:173-179 | without options the style is #546e7a, width 0.5, solid, filled head, no tail |
| BoardStore.AddLinkStep | src/app/features/tools/board/services/board-state.service.ts:165-194 | refused, with nothing changed, iff either card is missing or both are the same card; otherwise one dynamic bezier link with the defaulted style is appended |
| BoardStore.UpdateLinkStep | src/app/features/tools/board/services/board-state.service.ts:196-201 | the links become the old links with the first link of that id replaced by its patch; without such a link nothing changes; nothing but the links changes |
| BoardStore.RemoveLinkStep | src/app/features/tools/board/services/board-state.service.ts:203-205 | the links with another id, in their original order |
| BoardStore.AddLinkThenRemove | src/app/features/tools/board/services/board-state.service.ts:165-205 | adding a link under a fresh id and removing it again restores the board |
| BoardStore.CommitReconnectStep | src/app/features/tools/board/services/board-state.service.ts:208-222 | the chosen end of the first link with the id moves to the card and point with a fixed anchor, unless that joins both ends on one card; nothing else changes |
| BoardStore.LinkOpsKeepNoSelfLinks | src/app/features/tools/board/services/board-state.service.ts:165-222 | adding, reconnecting and removing links and removing the selection never create a self-link |
| BoardStore.ReconnectToMissingCard | src/app/features/tools/board/services/board-state.service.ts:208-222 | a reconnection may point a link at a card that is not on the board |
| BoardStore.OperationsKeepValid | src/app/features/tools/board/services/board-state.service.ts:61-239 | every card and selection operation keeps both selections free of duplicates |
| BoardStore.ZoomStaysInRange | src/app/features/tools/board/services/board-state.service.ts:16-148 | the initial zoom and every zoom published lie in [0.1, 8] |
| BoardStore.BoardStateService.constructor | src/app/features/tools/board/services/board-state.service.ts:16-23 | the store starts with the initial board |
| BoardStore.BoardStateService.GetSnapshot | src/app/features/tools/board/services/board-state.service.ts:32 | returns the current state |
| BoardStore.BoardStateService.AddCardAt | src/app/features/tools/board/services/board-state.service.ts:61-74 | performs the add-card step and returns the new id |
| BoardStore.BoardStateService.UpdateCard | src/app/features/tools/board/services/board-state.service.ts:76-81 | performs the update-card step |
| BoardStore.BoardStateService.RemoveSelected | src/app/features/tools/board/services/board-state.service.ts:83-102 | performs the remove-selected step |
| BoardStore.BoardStateService.SetSelection | src/app/features/tools/board/services/board-state.service.ts:105-107 | performs the set-selection step |
| BoardStore.BoardStateService.ClearSelection | src/app/features/tools/board/services/board-state.service.ts:108 | performs the clear-selection step |
| BoardStore.BoardStateService.ToggleSelection | src/app/features/tools/board/services/board-state.service.ts:109-116 | performs the toggle-selection step |
| BoardStore.BoardStateService.MoveSelected | src/app/features/tools/board/services/board-state.service.ts:119-127 | performs the move step, for moveSelected and nudgeSelected |
| BoardStore.BoardStateService.ResizeCard | src/app/features/tools/board/services/board-state.service.ts:130-134 | performs the resize step |
| BoardStore.BoardStateService.SetZoom | src/app/features/tools/board/services/board-state.service.ts:137-140 | performs the set-zoom step |
| BoardStore.BoardStateService.SetPan | src/app/features/tools/board/services/board-state.service.ts:142-144 | performs the set-pan step |
| BoardStore.BoardStateService.PanBy | src/app/features/tools/board/services/board-state.service.ts:146-148 | performs the pan-by step |
| BoardStore.BoardStateService.GetCardById | src/app/features/tools/board/services/board-state.service.ts:151 | returns the card looked up by id |
| BoardStore.BoardStateService.AddLink | src/app/features/tools/board/services/board-state.service.ts:165-194 | performs the add-link step and returns its id or none |
| BoardStore.BoardStateService.UpdateLink | src/app/features/tools/board/services/board-state.service.ts:196-201 | performs the update-link step |
| BoardStore.BoardStateService.RemoveLink | src/app/features/tools/board/services/board-state.service.ts:203-205 | performs the remove-link step |
| BoardStore.BoardStateService.CommitReconnect | src/app/features/tools/board/services/board-state.service.ts:208-222 | performs the reconnect step |
| BoardStore.BoardStateService.SetLinkSelection | src/app/features/tools/board/services/board-state.service.ts:225-230 | performs the set-link-selection step |
| BoardStore.BoardStateService.ToggleLinkSelection | src/app/features/tools/board/services/board-state.service.ts:232-239 | performs the toggle-link-selection step |
| BoardView.RectsIntersectSymmetric | src/app/features/tools/board/board.ts:344-346 | intersection does not depend on the order of the rectangles |
| BoardView.TouchingRectsDoNotIntersect | src/app/features/tools/board/board.ts:344-346 | rectangles that only share an edge do not intersect |
| BoardView.RectsIntersectDegenerate | src/app/features/tools/board/board.ts:344-346 | a rectangle with positive sides intersects itself; one of zero width intersects nothing |
| BoardView.TopCardIndex | src/app/features/tools/board/board.ts:488-494 | the index of the last card in drawing order whose rectangle holds the point, -1 exactly when none holds it; no later card holds it |
| BoardView.TopCardIsTopmost | src/app/features/tools/board/board.ts:488-494 | a card holding the point with no later card holding it is the one the hit test finds |
| BoardView.GetCardAtPoint | src/app/features/tools/board/board.ts:488-494 | the backward loop returns the card at the top index, or none exactly when no card holds the point |
| BoardView.ExtentOfTight | src/app/features/tools/board/board.ts:353-367 | each side of the box touches one of the cards, so no smaller box would do |
| BoardView.ExtentOf | src/app/features/tools/board/board.ts:353-367 | the box of a non-empty run of cards contains each of them |
| BoardView.ExtentOfStep | src/app/features/tools/board/board.ts:356-362 | the box of a longer prefix is the shorter prefix's box extended by the next card |
| BoardView.SelectedCards | src/app/features/tools/board/board.ts:353-367 | the cards whose ids are selected, in board order; none exactly when no card's id is selected |
| BoardView.GetSelectionBounds | src/app/features/tools/board/board.ts:353-367 | nothing for fewer than two selected ids or when none is on the board; otherwise the smallest box around the selected cards |
| BoardView.BoxAround | src/app/features/tools/board/board.ts:358-365 | the min/max loop yields exactly the extent of the selected cards, which contains each of them |
| BoardView.MarqueeRect | src/app/features/tools/board/board.ts:211-228 | the marquee's box spans from the smaller to the larger coordinate of its corners |
| BoardView.MarqueeDirectionIrrelevant | src/app/features/tools/board/board.ts:211-228 | dragging from either corner gives the same box |
| BoardView.MarqueeIds | src/app/features/tools/board/board.ts:211-228 | the ids of exactly the cards intersecting the marquee box, in board order |
| BoardView.MarkerEnd | src/app/features/tools/board/board.ts:528-533 | an arrow-head marker iff the head is filled or open |
| BoardView.MarkerStart | src/app/features/tools/board/board.ts:534-539 | an arrow-tail marker iff the tail is filled or open |
| BoardView.DefaultLinkMarkers | src/app/features/tools/board/board.ts:528-539 | a link added with default options is drawn with a filled head and no tail |
| BoardView.PointById | src/app/features/tools/board/board.ts:513 | the card's connection point with the id when there is one, else its first point |
| BoardView.DraftTargetPoint | src/app/features/tools/board/board.ts:517-518 | the made-up point faces right or left when the pointer went farther across than down, down or up otherwise, on the side the pointer went |
| BoardView.DraftCurve | src/app/features/tools/board/board.ts:513-520 | the draft curve runs from the draft's start to the pointer, its last handle pulled along the made-up point's direction |
| BoardView.DraftPathD | src/app/features/tools/board/board.ts:509-524 | nothing exactly when there is no draft or its source card is gone; otherwise the draft curve's path data and its point at t = 0.5 for the label |
| BoardView.DraftAtStartIsPoint | src/app/features/tools/board/board.ts:509-524 | a draft whose pointer has not moved draws the single point where it started, with its label there |
| BoardView.ApplyRatio | src/app/features/tools/board/board.ts:303-306 | with Shift held the other side follows the starting aspect ratio; without it nothing changes |
| BoardView.ResizedRect | src/app/features/tools/board/board.ts:292-312 | the left side moves by the travel exactly when the handle names w and the top exactly when it names n; otherwise they stay where the resize started, with or without Shift |
| BoardView.ResizeWithoutShift | src/app/features/tools/board/board.ts:292-312 | without Shift, e and s move the far sides by the pointer's travel, w and n move the near sides with the far sides fixed, and an unnamed side stays |
| BoardView.ResizeWithShift | src/app/features/tools/board/board.ts:292-312 | with Shift the result keeps the starting aspect ratio whatever the handle |
| BoardView.EastDrag | src/app/features/tools/board/board.ts:307 | an east drag without Shift widens the card and keeps its height; with Shift the sides keep the starting ratio |
| BoardView.KeyUi | src/app/features/tools/board/board.ts:321-336 | Space arms panning and any other key leaves it; Escape ends every gesture, drops the draft and the hover and returns to idle; no other key changes anything else |
| BoardView.KeyBoard | src/app/features/tools/board/board.ts:321-336 | Delete, Backspace and Escape leave nothing selected; Delete and Backspace keep exactly the unselected cards; Escape and the arrows keep the links and the number of cards; the arrows keep the selection; other keys change nothing |
| BoardView.HoverTarget | src/app/features/tools/board/board.ts:153-163 | the topmost card under the pointer and its nearest connection point, or neither when no card holds the pointer |
| BoardView.Board.constructor | src/app/features/tools/board/board.ts:21-48 | the board starts idle with no gesture, hint or draft |
| BoardView.Board.AddCard | src/app/features/tools/board/board.ts:55-73 | a card is added at the given board position and becomes the selection |
| BoardView.Board.AdjustZoom | src/app/features/tools/board/board.ts:79-105 | the zoom is scaled by the factor and clamped; the pan is kept |
| BoardView.Board.ZoomIn | src/app/features/tools/board/board.ts:74 | zooms by 1.1 |
| BoardView.Board.ZoomOut | src/app/features/tools/board/board.ts:75 | zooms by 1/1.1 |
| BoardView.Board.ResetZoom | src/app/features/tools/board/board.ts:76 | zoom 1 and pan (0, 0) |
| BoardView.Board.DeleteSelection | src/app/features/tools/board/board.ts:77 | removes the selection from the store |
| BoardView.Board.OnBackgroundPointerDown | src/app/features/tools/board/board.ts:133-148 | ignored during a gesture; a plain primary press clears the selection and starts a marquee; with Space held it starts a pan |
| BoardView.Board.OnBackgroundPointerMove | src/app/features/tools/board/board.ts:149-210 | a draft or endpoint drag follows the pointer and the hover names the topmost card under it with its nearest point (none when no card is there); a marquee stretches; a pan moves the view by the travel |
| BoardView.Board.OnBackgroundPointerUp | src/app/features/tools/board/board.ts:211-228 | a marquee selects exactly the cards its box intersects; every background gesture ends |
| BoardView.Board.OnCardPointerDown | src/app/features/tools/board/board.ts:229-245 | Ctrl toggles the card; otherwise an unselected card becomes the selection; a drag starts |
| BoardView.Board.OnDragMove | src/app/features/tools/board/board.ts:250-260 | the selection moves by the pointer's travel since the last move, in board units |
| BoardView.Board.OnDragEnd | src/app/features/tools/board/board.ts:261-268 | the drag ends and the component is idle again |
| BoardView.Board.StartResize | src/app/features/tools/board/board.ts:269-288 | the card becomes the only selection and its rectangle and the pointer are remembered |
| BoardView.Board.OnResizeMove | src/app/features/tools/board/board.ts:292-312 | the card is resized to the computed rectangle, the store enforcing the minimum size |
| BoardView.Board.OnResizeEnd | src/app/features/tools/board/board.ts:313-319 | the resize ends and the component is idle again |
| BoardView.Board.OnKey | src/app/features/tools/board/board.ts:321-336 | Space arms panning; Delete and Backspace remove the selection; Escape ends every gesture and clears the selection; arrows nudge by one unit |
| BoardView.Board.CancelGestures | src/app/features/tools/board/board.ts:325-329 | every gesture, draft and hover hint is cleared and the endpoint listeners removed |
| BoardView.Board.OnKeyUp | src/app/features/tools/board/board.ts:338-341 | releasing Space disarms panning |
| BoardView.Board.StartLinkFrom | src/app/features/tools/board/board.ts:437-475 | ignored during a gesture; otherwise a draft starts at the named point, or the card's first, and the listeners are installed |
| BoardView.Board.OnLinkGestureMove | src/app/features/tools/board/board.ts:447-458 | the draft follows the pointer; the topmost card under it, when it is not the source card, is the hover target with its nearest point, else there is none; nothing else changes |
| BoardView.Board.OnLinkGestureUp | src/app/features/tools/board/board.ts:459-469 | released over a topmost card other than the source, the board becomes the add-link step from the source point to that card's nearest point; otherwise the board is unchanged; the gesture ends either way |
| BoardView.Board.OnLinkPointerDown | src/app/features/tools/board/board.ts:476-487 | Ctrl toggles the link; otherwise an unselected link becomes the selection |
| BoardView.Board.OnEndpointHandleDown | src/app/features/tools/board/board.ts:590-605 | drops any draft; outside a gesture and with both cards on the board, starts dragging that end |
| BoardView.Board.OnEndpointMove | src/app/features/tools/board/board.ts:606-620 | the end follows the pointer; the drag and the hover name the topmost card under it and its nearest point, or none; nothing else changes |
| BoardView.Board.OnEndpointUp | src/app/features/tools/board/board.ts:621-634 | released over a card's point, the link's end is reconnected there; the drag ends either way |
| BoardProperties.GetSingleSelected | src/app/features/tools/board/components/board-properties.component.ts:211-215 | the card iff exactly one card id is selected and a card has that id |
| BoardProperties.GetSingleSelectedLink | src/app/features/tools/board/components/board-properties.component.ts:216-221 | the link iff exactly one link id is selected and a link has that id |
| BoardProperties.SelectingOneCardEditsIt | src/app/features/tools/board/components/board-properties.component.ts:211-215 | after selecting one card on the board, that card is the one the panel edits |
| BoardProperties.MergeTitleStyle | src/app/features/tools/board/components/board-properties.component.ts:223-227 | a field the partial sets wins; the others are kept |
| BoardProperties.MergeTitleStyleComposes | src/app/features/tools/board/components/board-properties.component.ts:223-227 | two edits in a row equal one edit with the later partial laid over the earlier |
| BoardProperties.MergeTitleStyleIdempotent | src/app/features/tools/board/components/board-properties.component.ts:223-227 | repeating an edit changes nothing more |
| BoardProperties.TitleStylePatch | src/app/features/tools/board/components/board-properties.component.ts:223-227 | a patch that sets only the merged title style, starting from an empty style when the card has none |
| BoardProperties.MergeRectStyle | src/app/features/tools/board/components/board-properties.component.ts:228-232 | a field the partial sets wins; the others are kept |
| BoardProperties.RectStylePatch | src/app/features/tools/board/components/board-properties.component.ts:228-232 | a patch that sets only the merged rectangle style, starting from an empty style when the card has none |
| BoardProperties.TitleStyleEditTouchesOnlyTitleStyle | src/app/features/tools/board/components/board-properties.component.ts:223-227 | editing a card's title style through the store gives the first card of that id the merged title style, changes nothing else in that card, and leaves every other card, the links and the selection unchanged |
| BoardProperties.MergeLinkStyle | src/app/features/tools/board/components/board-properties.component.ts:233-236 | a field the partial sets wins; the others are kept |
| BoardProperties.MergeLinkStyleEmpty | src/app/features/tools/board/components/board-properties.component.ts:233-236 | an empty partial leaves the style as it is |
| BoardProperties.LinkStyleUpdate | src/app/features/tools/board/components/board-properties.component.ts:233-236 | the link patch carries the merged style and nothing else |
| BoardProperties.LinkLabelFor | src/app/features/tools/board/components/board-properties.component.ts:237-242 | blank text removes the label; otherwise the trimmed text at the old position along the link, or 0.5 |
| BoardProperties.LinkLabelUpdate | src/app/features/tools/board/components/board-properties.component.ts:237-242 | the link patch always sets the label, possibly to none, and nothing else |
| BoardProperties.RelabelKeepsPosition | src/app/features/tools/board/components/board-properties.component.ts:237-242 | relabelling a labelled link keeps the label's position along the link |
| BoardProperties.ToNum | src/app/features/tools/board/components/board-properties.component.ts:243 | the converted number, or 0 when the conversion gives NaN |
| TextModels.NewText | src/app/features/tools/roadmapper/roadmapper.models.ts:20-25 | a text with the given string and measure, so its width and height are the measure's |
| TextModels.SumHeights | src/app/features/tools/roadmapper/roadmapper.models.ts:35-37 | no rows have height 0; rows of non-negative height sum to a non-negative height |
| TextModels.SumHeightsAppend | src/app/features/tools/roadmapper/roadmapper.models.ts:35-37 | stacking two blocks of rows stacks their heights |
| TextModels.ResultHeight | src/app/features/tools/roadmapper/roadmapper.models.ts:35-37 | a result without rows has height 0 |
| TextModels.MaxWidth | src/app/features/tools/roadmapper/roadmapper.models.ts:39-41 | at least 0, at least every row's width, and either 0 or some row's width |
| TextModels.ResultMaxWidth | src/app/features/tools/roadmapper/roadmapper.models.ts:39-41 | a result without rows has width 0; every row fits within the maximum |
| TextUtils.StripNumberChars | src/app/features/tools/roadmapper/roadmapper.text-utils.ts:16 | the result keeps no digit, dot or minus and is never longer |
| TextUtils.StripAppend | src/app/features/tools/roadmapper/roadmapper.text-utils.ts:16 | stripping distributes over concatenation |
| TextUtils.StripNothing | src/app/features/tools/roadmapper/roadmapper.text-utils.ts:16 | a string without number characters is left alone |
| TextUtils.StripAll | src/app/features/tools/roadmapper/roadmapper.text-utils.ts:16 | a string of number characters only is removed entirely |
| TextUtils.UnitOf | src/app/features/tools/roadmapper/roadmapper.text-utils.ts:16 | the unit holds no number character |
| TextUtils.UnitOfNumberAndUnit | src/app/features/tools/roadmapper/roadmapper.text-utils.ts:16 | the unit of a number followed by a unit name is that name |
| TextUtils.ParseCssValueToPx | src/app/features/tools/roadmapper/roadmapper.text-utils.ts:14-28 | fails iff the unit is not px, empty, rem or em, with "Unsupported unit: " and the unit |
| TextUtils.ParseBareNumber | src/app/features/tools/roadmapper/roadmapper.text-utils.ts:18-20 | a bare number is taken as pixels |
| TextUtils.ParsePx | src/app/features/tools/roadmapper/roadmapper.text-utils.ts:18-20 | a number in px is taken as is |
| TextUtils.ParseRem | src/app/features/tools/roadmapper/roadmapper.text-utils.ts:21-22 | a number in rem is multiplied by the root font size |
| TextUtils.ParseEm | src/app/features/tools/roadmapper/roadmapper.text-utils.ts:23-24 | a number in em is multiplied by the element font size |
| TextUtils.ParseOtherUnit | src/app/features/tools/roadmapper/roadmapper.text-utils.ts:25-26 | a number in any other unit is refused with that unit in the message |
| TextUtils.SumConverted | src/app/features/tools/roadmapper/roadmapper.text-utils.ts:31 | the fold of no values is 0 |
| TextUtils.SumConvertedOkIff | src/app/features/tools/roadmapper/roadmapper.text-utils.ts:31 | the fold succeeds exactly when every value converts |
| TextUtils.SumConvertedFirstError | src/app/features/tools/roadmapper/roadmapper.text-utils.ts:31 | a failing fold reports the error of its first failing value |
| TextUtils.SumConvertedAppend | src/app/features/tools/roadmapper/roadmapper.text-utils.ts:31 | folding two lists that both succeed adds their sums |
| TextUtils.SumCssValuesToPx | src/app/features/tools/roadmapper/roadmapper.text-utils.ts:30-32 | no values sum to 0; the sum succeeds iff every value converts |
| TextUtils.SumReportsFirstError | src/app/features/tools/roadmapper/roadmapper.text-utils.ts:30-32 | a failing sum reports the unsupported unit of its first failing value |
| TextUtils.SplitsText | src/app/features/tools/roadmapper/roadmapper.text-utils.ts:34 | at least one piece, and no piece holds whitespace |
| TextUtils.RemoveLastWord | src/app/features/tools/roadmapper/roadmapper.text-utils.ts:61-65 | computes the trimmed text without its last word; what it keeps is stated by RemoveOnlyWord and RemoveLastWordOfWords |
| TextUtils.RemoveOnlyWord | src/app/features/tools/roadmapper/roadmapper.text-utils.ts:61-65 | a single word, however padded, loses everything |
| TextUtils.RemoveLastWordOfWords | src/app/features/tools/roadmapper/roadmapper.text-utils.ts:61-65 | removing the last word of words joined by spaces gives the other words joined by spaces |
| TextUtils.WrapStep | src/app/features/tools/roadmapper/roadmapper.text-utils.ts:47-56 | placing one word never drops a row and leaves every row before the last untouched |
| TextUtils.WrapFrom | src/app/features/tools/roadmapper/roadmapper.text-utils.ts:47-57 | placing the words adds at most one row per word and leaves the earlier rows untouched |
| TextUtils.SplitsTextInRows | src/app/features/tools/roadmapper/roadmapper.text-utils.ts:36-59 | the result carries the style and the rows of the word-wrapping loop over the text's words |
| TextUtils.WrapWords | src/app/features/tools/roadmapper/roadmapper.text-utils.ts:44-57 | the loop leaves the rows that placing every fragment in order, from one empty row, gives |
| TextUtils.WrapStepText | src/app/features/tools/roadmapper/roadmapper.text-utils.ts:48-55 | every step appends the word, after a space, to the space-joined text of the rows |
| TextUtils.WrapKeepsWords | src/app/features/tools/roadmapper/roadmapper.text-utils.ts:47-57 | wrapping keeps every word in order: the rows joined by spaces are the starting rows and the words joined by spaces |
| TextUtils.SplitKeepsText | src/app/features/tools/roadmapper/roadmapper.text-utils.ts:36-59 | the split rows joined by spaces are the text's words joined by single spaces after a leading space |
| TextUtils.WrapRowsFit | src/app/features/tools/roadmapper/roadmapper.text-utils.ts:48-56 | only a row holding a single word can be wider than the maximum width |
| TextUtils.SplitRowsFit | src/app/features/tools/roadmapper/roadmapper.text-utils.ts:36-59 | under a non-negative maximum width, every row of a split text fits it or is a single over-wide word of the text |
| TextUtils.Ellipsized | src/app/features/tools/roadmapper/roadmapper.text-utils.ts:82-83 | the row's text loses its last word and gains " ..." |
| TextUtils.EllipsizedRows | src/app/features/tools/roadmapper/roadmapper.text-utils.ts:67-89 | the missing-style error when there is no style or font; otherwise never more rows than given |
| TextUtils.KeptRows | src/app/features/tools/roadmapper/roadmapper.text-utils.ts:76-88 | an error exactly when there are rows and even the first overflows; otherwise no more rows than given, the last kept row still fits and the row after it, if any, overflows |
| TextUtils.StackedRowsOverflow | src/app/features/tools/roadmapper/roadmapper.text-utils.ts:76-88 | when row i is the first to overflow: the failure at row 0, else the rows before it with the last one ellipsized |
| TextUtils.FirstOverflow | src/app/features/tools/roadmapper/roadmapper.text-utils.ts:78-80 | the first row whose cumulative line height exceeds the maximum, or the row count when none does |
| TextUtils.FirstOverflowAt | src/app/features/tools/roadmapper/roadmapper.text-utils.ts:78-80 | a row within the height is before the first overflow; the first row beyond it is the first overflow |
| TextUtils.EllipsizeLast | src/app/features/tools/roadmapper/roadmapper.text-utils.ts:81-84 | the rows with the last one's final word replaced by " ...", the rows before it unchanged; with no rows, the TypeError of writing to `rows[-1]` |
| TextUtils.EllipsizeRows | src/app/features/tools/roadmapper/roadmapper.text-utils.ts:67-89 | the rows kept by the height loop, ellipsized at the first overflow, or the error the source throws |
| TextUtils.StackRows | src/app/features/tools/roadmapper/roadmapper.text-utils.ts:76-88 | the loop returns every row when all fit, the line-height error on the first row, or the rows before the first overflow with the last ellipsized |
| TextUtils.EllipsizeKeepsPrefix | src/app/features/tools/roadmapper/roadmapper.text-utils.ts:67-89 | it returns every row, or a prefix of them whose last row is the ellipsized original |
| TextUtils.EllipsizedRowsFit | src/app/features/tools/roadmapper/roadmapper.text-utils.ts:76-88 | the rows returned fit: their count times the line height is at most the maximum height |
| TextUtils.FirstRowOverflowFails | src/app/features/tools/roadmapper/roadmapper.text-utils.ts:80-82 | when the first row already overflows there is no previous row to ellipsize and the call fails |
| TextUtils.CorrectedEllipsizedRowsFit | src/app/features/tools/roadmapper/roadmapper.text-utils.ts:76-88 | with the first-row overflow guarded, a styled split with a parsable line height always yields rows, no more than given, that fit under the maximum height, and agrees with the version as written wherever that succeeds |
| TextUtils.ConvertEach | src/app/features/tools/roadmapper/roadmapper.text-utils.ts:93-105 | succeeds iff every value converts, and then gives their conversions in order |
| TextUtils.GetTextPosition | src/app/features/tools/roadmapper/roadmapper.text-utils.ts:91-107 | fails without styles, or when one of the six lengths does not convert; otherwise each length in pixels |
| TextUtils.StyleLengths | src/app/features/tools/roadmapper/roadmapper.text-utils.ts:96-104 | the six lengths the position reads from the style |
| Roadmapper.ActiveSnapGrid | src/app/features/tools/roadmapper/roadmapper.ts:727-731 | a grid exactly when one of the two snaps is on, and it is positive |
| Roadmapper.ActiveSnapGridChoice | src/app/features/tools/roadmapper/roadmapper.ts:727-731 | the primary grid of 100 wins; the secondary grid of 10 applies only when the primary snap is off |
| Roadmapper.Round | src/app/features/tools/roadmapper/roadmapper.ts:734 | the integer nearest the value, a half rounding up |
| Roadmapper.SnapValue | src/app/features/tools/roadmapper/roadmapper.ts:733-735 | the snapped value lies on a grid line, within half a cell of the value |
| Roadmapper.SnapValueIdempotent | src/app/features/tools/roadmapper/roadmapper.ts:733-735 | a value already on a grid line does not move |
| Roadmapper.NodesFor | src/app/features/tools/roadmapper/roadmapper.ts:241-251 | one node per PMO, in order, carrying its id, key, project and name, placed along the diagonal |
| Roadmapper.ConvertPmoToNode | src/app/features/tools/roadmapper/roadmapper.ts:219-239 | the node carries the PMO's id, key, project and name as title, its lower-cased kind as class and a pill, at the given position and size |
| Roadmapper.CenterRight | src/app/features/tools/roadmapper/roadmapper.ts:288-290 | a point on the node's right edge, as far from its top as from its bottom |
| Roadmapper.CenterLeft | src/app/features/tools/roadmapper/roadmapper.ts:292-294 | a point on the node's left edge, as far from its top as from its bottom |
| Roadmapper.NodesStackDown | src/app/features/tools/roadmapper/roadmapper.ts:244-250 | each later node starts below where an earlier one ends, so no two overlap |
| Roadmapper.ByProjectKey | src/app/features/tools/roadmapper/roadmapper.ts:202 | the keys are exactly the project-and-key strings of the PMOs |
| Roadmapper.ResolveTarget | src/app/features/tools/roadmapper/roadmapper.ts:257-262 | the id of the PMO filed under the reference's project and key whenever that id is non-empty, else "undefined" |
| Roadmapper.LinksOfPmo | src/app/features/tools/roadmapper/roadmapper.ts:256-265 | one link per dependency, each from the PMO's id to the resolved target, with fresh ids in order |
| Roadmapper.LinkCount | src/app/features/tools/roadmapper/roadmapper.ts:255-268 | the links built number exactly the dependencies of all PMOs |
| Roadmapper.LinksForStep | src/app/features/tools/roadmapper/roadmapper.ts:255-268 | appending one PMO's links and continuing with the rest gives the same list |
| Roadmapper.LinkEnds | src/app/features/tools/roadmapper/roadmapper.ts:255-268 | every link built goes from some PMO to the resolved target of one of its dependencies |
| Roadmapper.KeylessTargetUnresolved | src/app/features/tools/roadmapper/roadmapper.ts:257-262 | a target reference without a key resolves to "undefined" unless a PMO is filed under the key "undefined" |
| Roadmapper.PlaceNodes | src/app/features/tools/roadmapper/roadmapper.ts:244-251 | the loop produces exactly the diagonal nodes |
| Roadmapper.CollectLinks | src/app/features/tools/roadmapper/roadmapper.ts:253-268 | the loop produces exactly the concatenated links of every PMO |
| Roadmapper.BuildNodesAndLinks | src/app/features/tools/roadmapper/roadmapper.ts:241-271 | the diagonal nodes and the links of every dependency |
| Roadmapper.LinkCurve | src/app/features/tools/roadmapper/roadmapper.ts:288-303 | a curve from the source's right middle to the target's left middle, control points level with the ends and 0.35 of the horizontal span inward |
| Roadmapper.LevelLinkIsStraight | src/app/features/tools/roadmapper/roadmapper.ts:297-303 | between nodes whose middles are level every point of the curve is at that height |
| Roadmapper.LinkPath | src/app/features/tools/roadmapper/roadmapper.ts:297-303 | the path data of the link curve from the source's right middle to the target's left middle; it starts with a move command |
| Roadmapper.LinkPathWords | src/app/features/tools/roadmapper/roadmapper.ts:297-303 | with a space-free number format, the path splits at spaces into the words of the link curve: M, its start, C, its three other points |
| Roadmapper.DrawnLinks | src/app/features/tools/roadmapper/roadmapper.ts:306-318 | a link is drawn exactly when both of its ends are nodes on the canvas |
| Roadmapper.UnresolvedLinkNotDrawn | src/app/features/tools/roadmapper/roadmapper.ts:306-310 | a link to "undefined" is never drawn when no node has that id |
| Roadmapper.RefreshStep | src/app/features/tools/roadmapper/roadmapper.ts:198-216 | the index, nodes and links rebuilt from the loaded PMOs; nothing else changes |
| Roadmapper.NodeDownStep | src/app/features/tools/roadmapper/roadmapper.ts:578-589 | a drag starts from the pointer and the node's position; nothing else changes |
| Roadmapper.PlaceNode | src/app/features/tools/roadmapper/roadmapper.ts:595-596 | only the dragged node moves, to the given point; the other nodes and the key set stay |
| Roadmapper.NodeMoveStep | src/app/features/tools/roadmapper/roadmapper.ts:591-599 | ignored without a drag or while panning; otherwise only the nodes change |
| Roadmapper.NodeUpStep | src/app/features/tools/roadmapper/roadmapper.ts:601-615 | ignored without a drag or while panning; otherwise the drag ends and, with a grid, the dragged node's x and y both snap to it; without a grid the nodes stay |
| Roadmapper.StageDownStep | src/app/features/tools/roadmapper/roadmapper.ts:636-647 | ignored during a drag or on a node; otherwise panning starts at the pointer |
| Roadmapper.StageMoveStep | src/app/features/tools/roadmapper/roadmapper.ts:649-662 | ignored unless panning without a drag; only the preview offset changes |
| Roadmapper.StageUpStep | src/app/features/tools/roadmapper/roadmapper.ts:664-679 | ignored unless panning without a drag; only the committed offset and the panning flag change |
| Roadmapper.WheelStep | src/app/features/tools/roadmapper/roadmapper.ts:699-703 | only the zoom changes: down by 0.1 when the wheel turns up (negative delta), up by 0.1 otherwise |
| Roadmapper.DragFollowsPointer | src/app/features/tools/roadmapper/roadmapper.ts:578-615 | press, move and release without a grid leave the node displaced by the pointer's travel and no drag |
| Roadmapper.DragSnapsToGrid | src/app/features/tools/roadmapper/roadmapper.ts:601-613 | press, move and release with a grid leave the node at the snapped drop point: x and y each on a grid line within half a cell of where the pointer dropped it |
| Roadmapper.PanCommitsTravel | src/app/features/tools/roadmapper/roadmapper.ts:636-679 | press, move and release off a node commit the pointer's travel to the offset, which the preview showed |
| Roadmapper.WheelInverse | src/app/features/tools/roadmapper/roadmapper.ts:699-703 | a turn in one sense undone by a turn in the other restores the state |
| Roadmapper.ZoomUnbounded | src/app/features/tools/roadmapper/roadmapper.ts:699-701 | a zoom of 0.1 or below reaches zero or less after one more turn down |
| Roadmapper.RoadmapperCanvas.constructor | src/app/features/tools/roadmapper/roadmapper.ts:125-141 | the initial canvas: no nodes, links or index, primary snapping on and secondary off, no drag or pan, zoom 1 |
| Roadmapper.RoadmapperCanvas.Refresh | src/app/features/tools/roadmapper/roadmapper.ts:198-216 | the canvas state after the refresh step |
| Roadmapper.RoadmapperCanvas.OnNodePointerDown | src/app/features/tools/roadmapper/roadmapper.ts:578-589 | the canvas state after the press step |
| Roadmapper.RoadmapperCanvas.OnNodePointerMove | src/app/features/tools/roadmapper/roadmapper.ts:591-599 | the canvas state after the node move step |
| Roadmapper.RoadmapperCanvas.OnNodePointerUp | src/app/features/tools/roadmapper/roadmapper.ts:601-615 | the canvas state after the release step |
| Roadmapper.RoadmapperCanvas.OnStagePointerDown | src/app/features/tools/roadmapper/roadmapper.ts:636-647 | the canvas state after the stage press step |
| Roadmapper.RoadmapperCanvas.OnStagePointerMove | src/app/features/tools/roadmapper/roadmapper.ts:649-662 | the canvas state after the stage move step |
| Roadmapper.RoadmapperCanvas.OnStagePointerUp | src/app/features/tools/roadmapper/roadmapper.ts:664-679 | the canvas state after the stage release step |
| Roadmapper.RoadmapperCanvas.OnWheel | src/app/features/tools/roadmapper/roadmapper.ts:686-708 | the canvas state after the wheel step |
| DomainTree.Rooted | src/app/features/home/domain-tree/domain-tree.component.ts:111 | the path starts with a slash, added only when missing |
| DomainTree.Norm | src/app/features/home/domain-tree/domain-tree.component.ts:108-114 | the normal form is never empty and always starts with a slash |
| DomainTree.NormCases | src/app/features/home/domain-tree/domain-tree.component.ts:108-114 | "/" for a blank path; otherwise the trimmed path rooted, with at most one trailing slash dropped |
| DomainTree.NormCanonical | src/app/features/home/domain-tree/domain-tree.component.ts:108-114 | a rooted path without surrounding blanks or trailing slash is its own normal form |
| DomainTree.NormNotIdempotent | src/app/features/home/domain-tree/domain-tree.component.ts:108-114 | normalising twice can differ from normalising once: for any word w that starts with neither whitespace nor "/", "w//" gives "/w/", which gives "/w" |
| DomainTree.NormShortens | src/app/features/home/domain-tree/domain-tree.component.ts:108-114 | a rooted path never grows when normalised |
| DomainTree.ParentPath | src/app/features/home/domain-tree/domain-tree.component.ts:115-120 | empty iff the normal form has no slash after its first character; otherwise the normal form up to its last slash |
| DomainTree.DomainIcon | src/app/features/home/domain-tree/domain-tree.component.ts:81-102 | each named kind gets its own icon and only that kind: globe for tenants, building for companies, sitemap for groups, warehouse for units, th-large for projects, users for departments and teams; every other kind, containers included, gets the folder |
| DomainTree.PersonLabel | src/app/features/home/domain-tree/domain-tree.component.ts:155 | the display name when set; otherwise the trimmed name and surname, falling back to the e-mail; empty only when display name and e-mail are |
| DomainTree.IndexOf | src/app/features/home/domain-tree/domain-tree.component.ts:123-134 | the keys filled in are exactly the given locations |
| DomainTree.IndexOfLastWins | src/app/features/home/domain-tree/domain-tree.component.ts:123-134 | a location holds the value set last at it |
| DomainTree.Index | src/app/features/home/domain-tree/domain-tree.component.ts:122-134 | the indexed locations are exactly the normalised locations of the domains |
| DomainTree.IndexSnoc | src/app/features/home/domain-tree/domain-tree.component.ts:123-134 | indexing one more domain sets its location to its node |
| DomainTree.IndexLastWins | src/app/features/home/domain-tree/domain-tree.component.ts:123-134 | a location holds the node of the last domain at it |
| DomainTree.PushAllHolds | src/app/features/home/domain-tree/domain-tree.component.ts:136-169 | every entry pushed ends up in its parent's list or among the roots |
| DomainTree.PushEach | src/app/features/home/domain-tree/domain-tree.component.ts:137-169 | the linking loops push exactly the listed entries in order |
| DomainTree.BuildTree | src/app/features/home/domain-tree/domain-tree.component.ts:104-200 | the loops compute the indexed, linked and sorted forest |
| DomainTree.DomainPlaced | src/app/features/home/domain-tree/domain-tree.component.ts:136-148 | each domain sits under the node at its parent path when indexed, among the roots otherwise |
| DomainTree.SortLists | src/app/features/home/domain-tree/domain-tree.component.ts:193-197 | the same lists under the same keys, each in label order and holding the same elements |
| DomainTree.BuiltTree | src/app/features/home/domain-tree/domain-tree.component.ts:104-199 | the tree indexes nodes by the domains' locations, and the roots and every children list come out in label order |
| DomainTree.PersonPlaced | src/app/features/home/domain-tree/domain-tree.component.ts:150-169 | each person is a leaf under the domain at their location when there is one, a root otherwise |
| DomainTree.DuplicateLocationShownTwice | src/app/features/home/domain-tree/domain-tree.component.ts:123-148 | two top-level domains at one location: the index keeps only the second, listed twice among the roots, and the first is lost |
| DomainTree.BuiltTreeDeeper | src/app/features/home/domain-tree/domain-tree.component.ts:136-148 | every domain listed under another has a strictly longer location, so the tree has no cycles |
| DomainTree.ExpandOrderStartsWithRoot | src/app/features/home/domain-tree/domain-tree.component.ts:204-206 | expanding from a node expands that node first |
| DomainTree.ChildrenOrderCovers | src/app/features/home/domain-tree/domain-tree.component.ts:207-217 | every non-leaf child of the node is expanded by the walk |
| DomainTree.ChildrenOrderSkipsLeaves | src/app/features/home/domain-tree/domain-tree.component.ts:209 | leaves are passed over by the walk |
| DomainTree.ExpandStep | src/app/features/home/domain-tree/domain-tree.component.ts:220-225 | a non-empty key is marked expanded; no other key's membership changes |
| DomainTree.CollapseStep | src/app/features/home/domain-tree/domain-tree.component.ts:227-232 | a non-empty key leaves the expanded keys and is flagged collapsed; no other key's membership changes |
| DomainTree.CollapseUndoesExpand | src/app/features/home/domain-tree/domain-tree.component.ts:220-232 | collapsing a key just expanded from collapsed restores the expanded keys |
| DomainTree.ExpandIdempotent | src/app/features/home/domain-tree/domain-tree.component.ts:220-225 | expanding twice is expanding once |
| DomainTree.ExpandAll | src/app/features/home/domain-tree/domain-tree.component.ts:204-218 | the expanded keys afterwards are the earlier ones plus every non-empty key walked |
| DomainTree.ExpandAllMarks | src/app/features/home/domain-tree/domain-tree.component.ts:204-218 | every non-empty key walked ends up expanded |
| DomainTree.ExpandAllKeepsMark | src/app/features/home/domain-tree/domain-tree.component.ts:204-218 | a key already expanded stays expanded |
| DomainTree.DomainTreeComponent.constructor | src/app/features/home/domain-tree/domain-tree.component.ts:24-25 | an empty tree, not loading, nothing expanded |
| DomainTree.DomainTreeComponent.LoadDomains | src/app/features/home/domain-tree/domain-tree.component.ts:59-61 | loading starts; tree and expansion unchanged |
| DomainTree.DomainTreeComponent.ExpandNode | src/app/features/home/domain-tree/domain-tree.component.ts:220-225 | the expansion after the expand step; the tree unchanged |
| DomainTree.DomainTreeComponent.CollapseNode | src/app/features/home/domain-tree/domain-tree.component.ts:227-232 | the expansion after the collapse step; the tree unchanged |
| DomainTree.DomainTreeComponent.SetExpandedAll | src/app/features/home/domain-tree/domain-tree.component.ts:204-218 | the expansion after expanding every key of the walk from the node; the tree unchanged |
| DomainTree.DomainTreeComponent.OnLoaded | src/app/features/home/domain-tree/domain-tree.component.ts:67-72 | the built tree, loading over; expanded from the first root, or the failure of an empty tree with the expansion unchanged |
| DomainTree.DomainTreeComponent.OnLoadFailed | src/app/features/home/domain-tree/domain-tree.component.ts:73-77 | loading over; tree and expansion unchanged |
| DomainTree.LoadExpandsFirstLevel | src/app/features/home/domain-tree/domain-tree.component.ts:67-72 | after loading, every domain directly below the first root is expanded |
| PmoEditor.LinkTargets | src/app/shared/pmo-editor/pmo-editor-dialog.component.ts:177-179 | one target id per link, in order |
| PmoEditor.FormFromModel | src/app/shared/pmo-editor/pmo-editor-dialog.component.ts:150-180 | the form shows every field of the PMO: id, key, kind, project, active, category, component, domain, name, description, owner email, estimations and link targets |
| PmoEditor.CreateSeed | src/app/shared/pmo-editor/pmo-editor-dialog.component.ts:120-126 | a new active TS PMO of category DEV in the workspace project, without id, key, links or estimations |
| PmoEditor.FindById | src/app/shared/pmo-editor/pmo-editor-dialog.component.ts:117 | nothing iff no PMO has the id; otherwise the first PMO with it |
| PmoEditor.LoadedStep | src/app/shared/pmo-editor/pmo-editor-dialog.component.ts:114-131 | the PMOs are kept; create seeds the form; edit with an id loads the PMO found; edit without one changes nothing else |
| PmoEditor.NewKey | src/app/shared/pmo-editor/pmo-editor-dialog.component.ts:136-138 | the kind's name, a dot and the successor of the highest number |
| PmoEditor.KindSelectedStep | src/app/shared/pmo-editor/pmo-editor-dialog.component.ts:133-139 | in create mode the kind is set and the key generated when the highest number is known; edit mode and a failed lookup leave the key; only the form changes |
| PmoEditor.SplitOnDot | src/app/shared/pmo-editor/pmo-editor-dialog.component.ts:138 | a key made of two dot-free parts splits back into those parts |
| PmoEditor.NewKeyIsFresh | src/app/shared/pmo-editor/pmo-editor-dialog.component.ts:136-138 | with a number format that parses back, a generated key differs from the key of every PMO of the same kind |
| PmoEditor.RemoveAt | src/app/shared/pmo-editor/pmo-editor-dialog.component.ts:204-206 | the sequence without the element at the index, the rest in order |
| PmoEditor.RemoveAtElements | src/app/shared/pmo-editor/pmo-editor-dialog.component.ts:204-206 | removal takes exactly that one element out of the multiset |
| PmoEditor.RemoveAtLast | src/app/shared/pmo-editor/pmo-editor-dialog.component.ts:219-221 | removing the element just appended restores the sequence |
| PmoEditor.AddEstimationStep | src/app/shared/pmo-editor/pmo-editor-dialog.component.ts:198-202 | an invalid entry changes nothing; a valid one is appended and the entry form reset; nothing else changes |
| PmoEditor.RemoveEstimationStep | src/app/shared/pmo-editor/pmo-editor-dialog.component.ts:204-206 | only the estimation at the index is removed |
| PmoEditor.AddLinkStep | src/app/shared/pmo-editor/pmo-editor-dialog.component.ts:208-217 | an empty target, the PMO itself or a target already listed is ignored; any other is appended |
| PmoEditor.AddLinkKeepsTargetsClean | src/app/shared/pmo-editor/pmo-editor-dialog.component.ts:208-217 | adding keeps the targets free of duplicates, of the empty id and of the PMO's own id |
| PmoEditor.AddThenRemoveLink | src/app/shared/pmo-editor/pmo-editor-dialog.component.ts:208-221 | removing a link just added restores the dialog |
| PmoEditor.RemoveLinkStep | src/app/shared/pmo-editor/pmo-editor-dialog.component.ts:219-221 | only the target at the index is removed |
| PmoEditor.PmoKeyById | src/app/shared/pmo-editor/pmo-editor-dialog.component.ts:223-227 | empty for no id or an unknown id; otherwise the key of the first PMO with the id |
| PmoEditor.SavedLink | src/app/shared/pmo-editor/pmo-editor-dialog.component.ts:258-270 | a dependency from the PMO being saved to the target id, with the target's project and name when it is loaded and defaults otherwise, never a target key |
| PmoEditor.SavedLinks | src/app/shared/pmo-editor/pmo-editor-dialog.component.ts:257-271 | one saved link per selected target, in order |
| PmoEditor.SavedLinksTargets | src/app/shared/pmo-editor/pmo-editor-dialog.component.ts:257-271 | the saved links point at exactly the selected targets, in order |
| PmoEditor.SaveModel | src/app/shared/pmo-editor/pmo-editor-dialog.component.ts:240-271 | the loaded PMO's id with the form's project, key, kind and estimations, the location given and the links built from the targets |
| PmoEditor.SaveOf | src/app/shared/pmo-editor/pmo-editor-dialog.component.ts:233-305 | nothing for an invalid form; in edit mode with an id, an update of the built record; otherwise a create that keeps a given key, or takes the next key of the kind when the key is empty and the lookup succeeds, and the lookup's error when it fails |
| PmoEditor.LoadThenSaveKeepsFields | src/app/shared/pmo-editor/pmo-editor-dialog.component.ts:150-180 | saving a form loaded from a PMO rebuilds that PMO, apart from its location and links |
| PmoEditor.SaveGeneratesFreshKey | src/app/shared/pmo-editor/pmo-editor-dialog.component.ts:277-281 | a create with an empty key gets a key no PMO of the loaded list already has |
| PmoEditor.SaveKeepsLoadedTargets | src/app/shared/pmo-editor/pmo-editor-dialog.component.ts:150-271 | saving a PMO loaded and left as loaded keeps its link targets |
| PmoEditor.SavedLinksUnresolvedOnRoadmap | src/app/shared/pmo-editor/pmo-editor-dialog.component.ts:258-270 | a saved link has no target key, so the roadmap cannot resolve it unless some PMO is filed under the key "undefined" |
| PmoEditor.FixLinkSources | src/app/shared/pmo-editor/pmo-editor-dialog.component.ts:283-292 | a fix happens iff the saved PMO has an id, links were sent and some link lacks its source id; it then sets every link's source id and project and changes nothing else |
| PmoEditor.FixLinkSourcesOnce | src/app/shared/pmo-editor/pmo-editor-dialog.component.ts:285-288 | a fixed PMO needs no second fix |
| PmoEditor.PmoEditorDialog.constructor | src/app/shared/pmo-editor/pmo-editor-dialog.component.ts:43-45 | an edit-mode dialog with no PMOs, no PMO and empty forms |
| PmoEditor.PmoEditorDialog.Open | src/app/shared/pmo-editor/pmo-editor-dialog.component.ts:109-110 | the mode given, edit by default; nothing else changes |
| PmoEditor.PmoEditorDialog.OnPmosLoaded | src/app/shared/pmo-editor/pmo-editor-dialog.component.ts:113-131 | the dialog state after the loading step |
| PmoEditor.PmoEditorDialog.OnKindSelected | src/app/shared/pmo-editor/pmo-editor-dialog.component.ts:134-139 | the dialog state after the kind step |
| PmoEditor.PmoEditorDialog.AddEstimation | src/app/shared/pmo-editor/pmo-editor-dialog.component.ts:198-202 | the dialog state after the add-estimation step |
| PmoEditor.PmoEditorDialog.RemoveEstimation | src/app/shared/pmo-editor/pmo-editor-dialog.component.ts:204-206 | the dialog state after the remove-estimation step |
| PmoEditor.PmoEditorDialog.AddLinkByPmo | src/app/shared/pmo-editor/pmo-editor-dialog.component.ts:208-217 | the dialog state after the add-link step |
| PmoEditor.PmoEditorDialog.RemoveLink | src/app/shared/pmo-editor/pmo-editor-dialog.component.ts:219-221 | the dialog state after the remove-link step |
| PmoEditor.PmoEditorDialog.Save | src/app/shared/pmo-editor/pmo-editor-dialog.component.ts:233-305 | the outcome of saving the dialog's current state |
| Collections.Dedup | src/app/features/tools/board/services/board-state.service.ts:106 | the result has no duplicates, holds exactly the elements of the input and is no longer |
| Collections.DedupSnoc | src/app/features/tools/board/services/board-state.service.ts:106 | one more element joins the end of the deduplicated selection exactly when it is new |
| Collections.DedupFirstOccurrenceOrder | src/app/features/tools/board/services/board-state.service.ts:106 | of any two elements of the result, the earlier one first occurs in the input before the later one does |
| Collections.DedupNoDup | src/app/features/tools/board/services/board-state.service.ts:106 | a selection without duplicates is kept as it is |
| Collections.Toggle | src/app/features/tools/board/services/board-state.service.ts:111-113 | the element's membership flips and every other element's stays |
| Collections.ToggleTwice | src/app/features/tools/board/services/board-state.service.ts:111-113 | toggling the same id twice restores a duplicate-free selection |
| Collections.FilterFilter | src/app/features/tools/board/services/board-state.service.ts:83-102 | filtering by one condition and then another keeps the same elements in the same order as filtering once by both |
| Strings.SplitWsJoin | src/app/features/tools/roadmapper/roadmapper.text-utils.ts:34 | splitting words joined by single spaces on whitespace gives the words back |
| Strings.SplitOnJoin | src/app/core/workspace/workspace.service.ts:266 | the pieces of a split, joined by the separator, give back the string |
| Strings.SortStringsCorrect | src/app/core/infra/repo/generic.repository.ts:28 | the sorted keys are ordered and a rearrangement of the input |
| Strings.SortForgetsOrder | src/app/core/infra/repo/generic.repository.ts:28 | the same keys in any order sort to the same sequence |

## Left out

- rxjs scheduling: `shareReplay` fan-out, `takeUntil`, the timing of `finalize`, and `expand`/`reduce`. They are not modelled because every request is an explicit start step and completion step.
- DOM, SVG and canvas work: element creation, drawing, pointer capture, cursors and `fitTextToRect`. These are rendering with no logic of their own.
- Screen-to-board conversion, the view-box rescale on a roadmapper wheel turn, the centre offsets of the board's zoom, and the hover hint. This is float arithmetic on DOM measurements; positions arrive in board units.
- `shouldSuppressCp`, `getLinkPathD`, `getLinkLabelPos`, `getLinkEndpoints` and `getEndpointDraftPathD` of the board: they depend on `computeEndpoints`, which is not part of this model.
- `buildSprintappApiv1BaseUrl` is not part of this model; the base URL is a parameter.
- `GenericRepository`: only its key builders and `getAll` are modelled. Its other methods target a six-argument `RepositoryBase` that is not part of this model, and the thin repository adapters with their converters are left out with it.
- Floating point: numbers are reals. `NaN` is modelled only where the source tests for it: the properties panel's conversion gives `None` there. The text helpers take `parseFloat` as a total function to reals, so the model says nothing about what a length without digits, such as `"px"`, converts to.
- `Strings.ToLowerAscii` lowers ASCII letters only. The strings it meets (PMO kinds and resource types) are ASCII, so Unicode case mapping is not modelled.
- The ISO timestamp the logger prefixes, and `console.error` calls. They are output only.
- Angular validators are a `valid` flag given to the step that reads them. `FormArray.removeAt` is called by the template with an index of the array, so the remove steps require a valid index.
- PMO editor: closing the dialog (`cancel`, `ref.close`) and the repository `create`/`update` calls. `save` returns the request it would send. The follow-up update after a create is the separate function `PmoEditor.FixLinkSources`. A rejected key lookup in the kind handler leaves the key unchanged and reports nothing.
- Absent and `undefined` properties are not told apart in an object spread. A spread of a string or an array counts as `{}`.
- Roadmapper text: `Text` is a value, so the source's in-place edit of a row object shared with the input (`rows[lastId].text = …`) is modelled as a new row in the result.
- Roadmapper drag: a drag that outlives a refresh moves the node with the dragged id in the new node map. The stale object the source keeps is not modelled.
- Domain tree: a node's `expanded` flag is stored by key. Domain nodes are named by their location rather than shared as objects.
- Domain tree: `sortRec` recurses only into nodes that have children. The model sorts every children list, which gives the same order because an empty list is already sorted.
- `Roadmapper.SnapValue`: requires a positive grid. The source calls it only with the active grid, 100 or 10.
- `BoardView.ResizeWithShift`: the aspect-ratio branch is stated for a card of non-zero size. With a zero width or height the source divides by zero.
- `TextUtils.SumConvertedAppend`: the append property is stated on the generic fold that `TextUtils.SumCssValuesToPx` instantiates, not on the CSS sum itself.
- `GenericRepository.GetAll`: the page stream is a finite list of pages given in advance. As written, the stream `getAll` receives after a first page with a next one never ends; `GenericRepository.AsWrittenGetAllNeverEnds` states that separately.
- `BoardModels.CardRectStyle` carries only `cornerRadiusUnits`. The properties panel's border controls (colour, width, dash and line cap, board-properties.component.ts:87-124) and the border fields they write are outside the model, and so is the test that checks those fields survive `updateCard` (board-state.service.spec.ts:196-199).
- `Strings.Less` orders strings by code point, where JavaScript's default sort compares UTF-16 code units. The two orders differ only for characters above U+FFFF.
- `DomainTree.BuiltTree`: `localeCompare` is abstracted as a collation key `rank`, and labels are ordered by their rank, not by a locale's collation rules.

## Findings

| source | as written | input that shows it | evidently intended | confidence | as-written member | corrected member |
|---|---|---|---|---|---|---|
| src/app/core/infra/repo/repository-base.ts:27-42 | `get` evicts an expired entry before `peek` looks for its ETag, so the repository's own `If-None-Match` header is never set (the interceptor's per-URL ETag may still be sent) | an entry with ETag `"v1"` that expired before the read | revalidate the expired entry with its ETag | not executed | RepositoryBase.StaleEntryRevalidates | RepositoryBase.CorrectedStartReadStep |
| src/app/core/infra/repo/generic.repository.ts:42-45 | the next-page call reuses the original key and params; the cursor params are computed and dropped | a first page with `has_next: true`: it is served again from the cache, forever | ask for the page after `next_cursor` | not executed | GenericRepository.AsWrittenGetAllNeverEnds | GenericRepository.CorrectedNextPageFollowsCursor |
| src/app/features/tools/roadmapper/roadmapper.text-utils.ts:80-82 | at an overflow the last kept row is ellipsized, with no check that one exists | a single row whose line height exceeds `maxHeight` | keep no row when even the first does not fit | not executed | TextUtils.FirstRowOverflowFails | TextUtils.CorrectedEllipsizedRowsFit |
