/**
 * `ItemsRepository` (src/app/core/infra/repo/items.repository.ts): the
 * repository of `/api/items`, on top of `RepositoryBase`.
 *
 * `watchItems` and `watchItem` merge the first read with re-reads on every
 * online/focus trigger; the trigger stream is the environment, so the model
 * offers the handler of one trigger, `OnTrigger…`, which re-reads only when
 * the cached entry is missing or expired.
 */
module ItemsRepository {
  import opened Wrappers
  import opened Json
  import CacheStore
  import RepositoryBase
  import GenericRepository

  const BASE_URL: string := "/api/items"
  const LIST_KEY: string := "list:items"

  /** `listKey(params)`: the same key scheme as `buildListKey`, on base `list:items`. */
  function ListKey(params: Option<map<string, Value>>, keys: seq<string>, enc: Value -> string): (r: string)
    requires params.Some? ==> GenericRepository.IsKeyOrder(keys, params.value)
    ensures params.None? || params.value == map[] ==> r == LIST_KEY
    ensures params.Some? && params.value != map[] ==> |r| > |LIST_KEY| && r != LIST_KEY && r[..|LIST_KEY|] == LIST_KEY
  {
    var r := GenericRepository.BuildListKey(LIST_KEY, params, keys, enc);
    assert params.Some? && params.value != map[] ==> r[..|LIST_KEY|] == r[..|LIST_KEY| + 1][..|LIST_KEY|];
    r
  }

  /** `itemKey(id)`. */
  function ItemKey(id: string): (r: string)
    ensures |r| == 11 + |id| && r[..5] == "item:" && r[11..] == id
  {
    "item:items:" + id
  }

  /** `${baseUrl}/${id}`. */
  function ItemUrl(id: string): (r: string)
    ensures |r| == |BASE_URL| + 1 + |id| && r[..|BASE_URL|] == BASE_URL && r[|BASE_URL| + 1..] == id
  {
    BASE_URL + "/" + id
  }

  /** Item keys and list keys never collide, so an item write never overwrites a cached list. */
  lemma ItemKeyNotListKey(id: string, params: Option<map<string, Value>>, keys: seq<string>, enc: Value -> string)
    requires params.Some? ==> GenericRepository.IsKeyOrder(keys, params.value)
    ensures ItemKey(id) != ListKey(params, keys, enc)
  {
    var l := ListKey(params, keys, enc);
    assert l[..5] == "list:";
    assert ItemKey(id)[..5] == "item:";
  }

  /** Different ids have different item keys. */
  lemma ItemKeyInjective(a: string, b: string)
    requires ItemKey(a) == ItemKey(b)
    ensures a == b
  {
    assert a == ItemKey(a)[11..];
  }

  /** The trigger filter: re-read when there is no entry or it has expired. */
  predicate WatchRefetch(entry: Option<CacheStore.Entry>, now: int) {
    entry.None? || entry.value.expiresAt <= now
  }

  /** The filter re-reads exactly when `getList`/`getItem` would miss the cache. */
  lemma WatchRefetchIffMiss(st: CacheStore.CacheState, key: string, now: int)
    ensures WatchRefetch(CacheStore.Peek(st, key), now) <==> CacheStore.Lookup(st, key, now).None?
  {
  }

  /**
   * A create, update or delete invalidates only the base list key: a list
   * cached under parameters survives the write, fresh until its own TTL runs out.
   */
  lemma ParameterisedListSurvivesWrite(st: CacheStore.CacheState, params: map<string, Value>, keys: seq<string>, enc: Value -> string)
    requires GenericRepository.IsKeyOrder(keys, params) && params != map[]
    ensures var key := ListKey(Some(params), keys, enc);
      CacheStore.Peek(CacheStore.Invalidated(st, [LIST_KEY]), key) == CacheStore.Peek(st, key)
  {
    var key := ListKey(Some(params), keys, enc);
    assert key != LIST_KEY;
    assert key !in [LIST_KEY];
  }

  class Items {
    const base: RepositoryBase.Repository

    constructor (base: RepositoryBase.Repository)
      ensures this.base == base
    {
      this.base := base;
    }

    /** `getItems(params)`: `getList` on the list key, with the default TTL. */
    method GetItems(params: Option<map<string, Value>>, keys: seq<string>, enc: Value -> string, now: int) returns (s: RepositoryBase.ReadStart)
      requires params.Some? ==> GenericRepository.IsKeyOrder(keys, params.value)
      modifies base, base.cache, base.cache.metrics
      ensures (base.Abstract(), s) == RepositoryBase.StartReadStep(old(base.Abstract()), RepositoryBase.ListRead,
        ListKey(params, keys, enc), BASE_URL, params.GetOr(map[]), RepositoryBase.DEFAULT_READ_TTL, now)
    {
      s := base.StartRead(RepositoryBase.ListRead, ListKey(params, keys, enc), BASE_URL, params.GetOr(map[]), RepositoryBase.DEFAULT_READ_TTL, now);
    }

    /** One online/focus trigger of `watchItems(params)`: re-read only on a missing or expired list entry. */
    method OnTriggerItems(params: Option<map<string, Value>>, keys: seq<string>, enc: Value -> string, now: int) returns (s: Option<RepositoryBase.ReadStart>)
      requires params.Some? ==> GenericRepository.IsKeyOrder(keys, params.value)
      modifies base, base.cache, base.cache.metrics
      ensures var key := ListKey(params, keys, enc);
        && (s.Some? <==> CacheStore.Lookup(old(base.cache.State()), key, now).None?)
        && (s.Some? ==> (base.Abstract(), s.value) == RepositoryBase.StartReadStep(old(base.Abstract()), RepositoryBase.ListRead,
              key, BASE_URL, params.GetOr(map[]), RepositoryBase.DEFAULT_READ_TTL, now))
        && (s.None? ==> base.Abstract() == old(base.Abstract()))
    {
      var key := ListKey(params, keys, enc);
      var entry := base.cache.PeekEntry(key);
      WatchRefetchIffMiss(base.cache.State(), key, now);
      if WatchRefetch(entry, now) {
        var r := GetItems(params, keys, enc, now);
        s := Some(r);
      } else {
        s := None;
      }
    }

    /** `readItem(id)`: `getItem` on the item key and URL, with the default TTL. */
    method ReadItem(id: string, now: int) returns (s: RepositoryBase.ReadStart)
      modifies base, base.cache, base.cache.metrics
      ensures (base.Abstract(), s) == RepositoryBase.StartReadStep(old(base.Abstract()), RepositoryBase.ItemRead,
        ItemKey(id), ItemUrl(id), map[], RepositoryBase.DEFAULT_READ_TTL, now)
    {
      s := base.StartRead(RepositoryBase.ItemRead, ItemKey(id), ItemUrl(id), map[], RepositoryBase.DEFAULT_READ_TTL, now);
    }

    /** One online/focus trigger of `watchItem(id)`. */
    method OnTriggerItem(id: string, now: int) returns (s: Option<RepositoryBase.ReadStart>)
      modifies base, base.cache, base.cache.metrics
      ensures (s.Some? <==> CacheStore.Lookup(old(base.cache.State()), ItemKey(id), now).None?)
      ensures s.Some? ==> (base.Abstract(), s.value) == RepositoryBase.StartReadStep(old(base.Abstract()), RepositoryBase.ItemRead,
        ItemKey(id), ItemUrl(id), map[], RepositoryBase.DEFAULT_READ_TTL, now)
      ensures s.None? ==> base.Abstract() == old(base.Abstract())
    {
      var entry := base.cache.PeekEntry(ItemKey(id));
      WatchRefetchIffMiss(base.cache.State(), ItemKey(id), now);
      if WatchRefetch(entry, now) {
        var r := ReadItem(id, now);
        s := Some(r);
      } else {
        s := None;
      }
    }

    /** `createItem(payload)`: POST to the base URL; on success only `list:items` is invalidated. */
    method CreateItem(payload: Value) returns (w: RepositoryBase.WriteStart)
      modifies base
      ensures (base.Abstract(), w) == RepositoryBase.StartCreateStep(old(base.Abstract()), [LIST_KEY], BASE_URL, payload)
    {
      w := base.StartCreate([LIST_KEY], BASE_URL, payload);
    }

    /** `updateItem(id, patch)`: PATCH the item URL, optimistically patching the item key. */
    method UpdateItem(id: string, patch: Value) returns (w: RepositoryBase.WriteStart)
      modifies base, base.cache
      ensures (base.Abstract(), w) == RepositoryBase.StartUpdateStep(old(base.Abstract()), ItemKey(id), ItemUrl(id), patch, [LIST_KEY])
    {
      w := base.StartUpdate(ItemKey(id), ItemUrl(id), patch, [LIST_KEY]);
    }

    /** `deleteItem(id)`: DELETE the item URL, optimistically dropping the item key. */
    method DeleteItem(id: string) returns (w: RepositoryBase.WriteStart)
      modifies base, base.cache
      ensures (base.Abstract(), w) == RepositoryBase.StartDeleteStep(old(base.Abstract()), ItemKey(id), ItemUrl(id), [LIST_KEY])
    {
      w := base.StartDelete(ItemKey(id), ItemUrl(id), [LIST_KEY]);
    }
  }
}
