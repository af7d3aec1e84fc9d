/**
 * `GenericRepository` (src/app/core/infra/repo/generic.repository.ts): the
 * cache keys of one API resource and `getAll`, which gathers the pages of a
 * paginated list.
 *
 * `Object.keys(params)` enumerates the record's keys in an order the model
 * leaves open (`keys`, any enumeration of them); `encodeURIComponent` is the
 * parameter `enc`.
 */
module GenericRepository {
  import opened Wrappers
  import opened Json
  import opened Strings
  import Collections
  import CacheStore
  import RepositoryBase
  import Http

  /** `keys` lists every key of `params` exactly once, in some order. */
  predicate IsKeyOrder(keys: seq<string>, params: map<string, Value>) {
    multiset(keys) == multiset(params.Keys)
  }

  /** The base list key of a resource. */
  function ListBase(apiResourceName: string): string {
    "list:" + apiResourceName
  }

  /** `k=enc(params[k])` for each key, in the given order. */
  function Pairs(params: map<string, Value>, keys: seq<string>, enc: Value -> string): (r: seq<string>)
    requires forall k :: k in keys ==> k in params
    ensures |r| == |keys|
    ensures forall i :: 0 <= i < |keys| ==> r[i] == keys[i] + "=" + enc(params[keys[i]])
  {
    if keys == [] then [] else [keys[0] + "=" + enc(params[keys[0]])] + Pairs(params, keys[1..], enc)
  }

  /** Every key of a key order is a key of the record, and so is every key of its sorted copy. */
  lemma SortedKeysInParams(keys: seq<string>, params: map<string, Value>)
    requires IsKeyOrder(keys, params)
    ensures forall k :: k in SortStrings(keys) ==> k in params
    ensures |keys| == |params.Keys|
  {
    SortStringsCorrect(keys);
    forall k | k in SortStrings(keys) ensures k in params {
      assert k in multiset(SortStrings(keys));
      assert k in multiset(params.Keys);
    }
    assert |multiset(keys)| == |multiset(params.Keys)|;
  }

  /**
   * `buildListKey(params)` on base key `base`: the base alone without
   * parameters; otherwise `base?` and the `k=enc(v)` pairs in ascending key
   * order, joined by `&`.
   */
  function BuildListKey(base: string, params: Option<map<string, Value>>, keys: seq<string>, enc: Value -> string): (r: string)
    requires params.Some? ==> IsKeyOrder(keys, params.value)
    ensures params.None? || params.value == map[] ==> r == base
    ensures params.Some? && params.value != map[] ==> |r| > |base| + 1 && r[..|base| + 1] == base + "?"
  {
    if params.None? || params.value.Keys == {} then base
    else
      SortedKeysInParams(keys, params.value);
      var q := Join(Pairs(params.value, SortStrings(keys), enc), "&");
      var r := base + "?" + q;
      assert r[..|base| + 1] == base + "?";
      r
  }

  /** The query lists the pairs by ascending key, so the order in which the record's keys were inserted does not matter. */
  lemma ListKeyIgnoresInsertionOrder(base: string, params: map<string, Value>, keys1: seq<string>, keys2: seq<string>, enc: Value -> string)
    requires IsKeyOrder(keys1, params) && IsKeyOrder(keys2, params)
    ensures BuildListKey(base, Some(params), keys1, enc) == BuildListKey(base, Some(params), keys2, enc)
  {
    SortForgetsOrder(keys1, keys2);
  }

  /** The query's pairs are those of the sorted keys. */
  lemma ListKeyQuery(base: string, params: map<string, Value>, keys: seq<string>, enc: Value -> string)
    requires IsKeyOrder(keys, params) && params != map[]
    ensures var sorted := SortStrings(keys);
      && Sorted(sorted) && multiset(sorted) == multiset(params.Keys)
      && (forall k :: k in sorted ==> k in params)
      && BuildListKey(base, Some(params), keys, enc) == base + "?" + Join(Pairs(params, sorted, enc), "&")
  {
    SortStringsCorrect(keys);
    SortedKeysInParams(keys, params);
    assert params.Keys != {};
  }

  /** `itemKey(id)`: the list base, a colon and the id. */
  function ItemKey(apiResourceName: string, id: string): (r: string)
    ensures r == ListBase(apiResourceName) + ":" + id
    ensures r != BuildListKey(ListBase(apiResourceName), None, [], (v: Value) => "")
  {
    ListBase(apiResourceName) + ":" + id
  }

  // ---------------------------------------------------------------------------
  // getAll

  /** One page of a `PaginationResponse`: its `data`, `has_next` and `next_cursor`. */
  datatype Page = Page(data: Value, hasNext: bool, nextCursor: Value)

  /** `all.concat(res.data ?? [])`: an array contributes its items, a missing value nothing, anything else itself. */
  function PageItems(p: Page): (r: seq<Value>)
    ensures !Present(p.data) ==> r == []
    ensures p.data.Arr? ==> r == p.data.items
  {
    if p.data.Arr? then p.data.items else if Present(p.data) then [p.data] else []
  }

  /** The items gathered from a page stream: each page in order, up to and including the first without `has_next`. */
  function Collected(pages: seq<Page>): seq<Value> {
    if pages == [] then []
    else PageItems(pages[0]) + (if pages[0].hasNext then Collected(pages[1..]) else [])
  }

  function Flatten(pages: seq<Page>): (r: seq<Value>)
    ensures pages == [] ==> r == []
  {
    if pages == [] then [] else PageItems(pages[0]) + Flatten(pages[1..])
  }

  /** While every page announces a next one, the result is their items in order, followed by the rest. */
  lemma {:induction false} CollectedPrefix(pages: seq<Page>, k: nat)
    requires k <= |pages|
    requires forall i :: 0 <= i < k ==> pages[i].hasNext
    ensures Collected(pages) == Flatten(pages[..k]) + Collected(pages[k..])
  {
    if k > 0 {
      CollectedPrefix(pages[1..], k - 1);
      assert pages[1..][..k - 1] == pages[..k][1..];
      assert pages[1..][k - 1..] == pages[k..];
    }
  }

  /** A stream whose first page has no next: exactly that page's items. */
  lemma SinglePage(pages: seq<Page>)
    requires |pages| >= 1 && !pages[0].hasNext
    ensures Collected(pages) == PageItems(pages[0])
  {
  }

  /** The stream from page `i` on: page `i`'s items, then the rest if it announces more. */
  lemma CollectedAt(pages: seq<Page>, i: nat)
    requires i < |pages|
    ensures Collected(pages[i..]) == PageItems(pages[i]) + (if pages[i].hasNext then Collected(pages[i + 1..]) else [])
  {
    assert pages[i..][1..] == pages[i + 1..];
  }

  /**
   * `getAll`: the `expand`/`reduce` pipeline over the pages it receives,
   * concatenating each page's items and asking for more while `has_next`.
   */
  method GetAll(pages: seq<Page>) returns (all: seq<Value>)
    ensures all == Collected(pages)
  {
    all := [];
    var i := 0;
    var more := true;
    while more && i < |pages|
      invariant 0 <= i <= |pages|
      invariant more ==> all + Collected(pages[i..]) == Collected(pages)
      invariant !more ==> all == Collected(pages)
    {
      var items := PageItems(pages[i]);
      CollectedAt(pages, i);
      Collections.AppendAssoc(all, items, if pages[i].hasNext then Collected(pages[i + 1..]) else []);
      all := all + items;
      more := pages[i].hasNext;
      i := i + 1;
    }
  }

  /** The `newParams` that `getAll` computes for the next page, and never uses. */
  function CursorParams(params: map<string, Value>, page: Page): map<string, Value> {
    params["cursor" := page.nextCursor]
  }

  /** The `getList` call that `getAll` makes for the page after `page`: the original key and params. */
  function NextPageCall(apiResourceName: string, params: map<string, Value>, keys: seq<string>, enc: Value -> string, page: Page): (c: (string, map<string, Value>))
    requires IsKeyOrder(keys, params)
    ensures c.1 == params
    ensures c.1 != CursorParams(params, page) || ("cursor" in params && params["cursor"] == page.nextCursor)
  {
    (BuildListKey(ListBase(apiResourceName), Some(params), keys, enc), params)
  }

  /** Whatever page came back, the call for the next one is the same. */
  lemma NextPageIgnoresCursor(apiResourceName: string, params: map<string, Value>, keys: seq<string>, enc: Value -> string, p1: Page, p2: Page)
    requires IsKeyOrder(keys, params)
    ensures NextPageCall(apiResourceName, params, keys, enc, p1) == NextPageCall(apiResourceName, params, keys, enc, p2)
  {
  }

  /** A key order of `params` followed by `cursor` when that key is new: a key order of the next page's params. */
  function CursorKeys(keys: seq<string>, params: map<string, Value>, page: Page): (r: seq<string>)
    requires IsKeyOrder(keys, params)
    ensures IsKeyOrder(r, CursorParams(params, page))
  {
    if "cursor" in params then keys
    else
      assert CursorParams(params, page).Keys == params.Keys + {"cursor"};
      keys + ["cursor"]
  }

  /**
   * The call `getAll` evidently intends for the page after `page`: the key
   * and params of `{...params, cursor: next_cursor}`.
   */
  function CorrectedNextPageCall(apiResourceName: string, params: map<string, Value>, keys: seq<string>, enc: Value -> string, page: Page): (c: (string, map<string, Value>))
    requires IsKeyOrder(keys, params)
    ensures c.1 == CursorParams(params, page) && c.1["cursor"] == page.nextCursor
    ensures forall k :: k in params && k != "cursor" ==> k in c.1 && c.1[k] == params[k]
  {
    var next := CursorParams(params, page);
    (BuildListKey(ListBase(apiResourceName), Some(next), CursorKeys(keys, params, page), enc), next)
  }

  /** No pair holds an `&` when neither the names nor the encoded values do. */
  lemma PairsWithoutAmpersand(params: map<string, Value>, keys: seq<string>, enc: Value -> string)
    requires forall k :: k in keys ==> k in params && '&' !in k
    requires forall v :: '&' !in enc(v)
    ensures forall i :: 0 <= i < |keys| ==> '&' !in Pairs(params, keys, enc)[i]
  {
    var q := Pairs(params, keys, enc);
    forall i | 0 <= i < |keys|
      ensures '&' !in q[i]
    {
      assert q[i] == keys[i] + "=" + enc(params[keys[i]]);
      assert keys[i] in keys;
    }
  }

  /** Two `cursor=` pairs with different encoded values differ. */
  lemma CursorPairsDiffer(a: string, b: string, va: string, vb: string)
    requires a == "cursor=" + va && b == "cursor=" + vb && va != vb
    ensures a != b
  {
    assert a[7..] == va && b[7..] == vb;
  }

  /**
   * Two records over the same names whose values for `x` encode differently
   * get different list keys, when no name and no encoded value holds `&`.
   */
  lemma {:induction false} ListKeysDiffer(base: string, n1: map<string, Value>, n2: map<string, Value>, keys: seq<string>,
                                          enc: Value -> string, x: string)
    requires IsKeyOrder(keys, n1) && IsKeyOrder(keys, n2)
    requires x in n1 && x in n2 && enc(n1[x]) != enc(n2[x])
    requires forall v :: '&' !in enc(v)
    requires forall k :: k in n1 ==> '&' !in k
    ensures BuildListKey(base, Some(n1), keys, enc) != BuildListKey(base, Some(n2), keys, enc)
  {
    ListKeyQuery(base, n1, keys, enc);
    ListKeyQuery(base, n2, keys, enc);
    var sorted := SortStrings(keys);
    assert x in multiset(sorted);
    PairsDifferAt(n1, n2, sorted, enc, x);
    PairsWithoutAmpersand(n1, sorted, enc);
    PairsWithoutAmpersand(n2, sorted, enc);
    var q1, q2 := Pairs(n1, sorted, enc), Pairs(n2, sorted, enc);
    if Strings.Join(q1, "&") == Strings.Join(q2, "&") {
      Strings.JoinInjective(q1, q2, '&');
    }
    PrefixedDiffer(base + "?", Strings.Join(q1, "&"), Strings.Join(q2, "&"));
  }

  /** The pairs of two records differ where one name's values encode differently. */
  lemma PairsDifferAt(n1: map<string, Value>, n2: map<string, Value>, keys: seq<string>, enc: Value -> string, x: string)
    requires forall k :: k in keys ==> k in n1 && k in n2
    requires x in keys && enc(n1[x]) != enc(n2[x])
    ensures Pairs(n1, keys, enc) != Pairs(n2, keys, enc)
  {
    var q1, q2 := Pairs(n1, keys, enc), Pairs(n2, keys, enc);
    var i :| 0 <= i < |keys| && keys[i] == x;
    assert q1[i][|x| + 1..] == enc(n1[x]) && q2[i][|x| + 1..] == enc(n2[x]);
  }

  /** A common prefix keeps different strings different. */
  lemma PrefixedDiffer(prefix: string, a: string, b: string)
    requires a != b
    ensures prefix + a != prefix + b
  {
    assert (prefix + a)[|prefix|..] == a && (prefix + b)[|prefix|..] == b;
  }

  /**
   * Pages naming different cursors lead to different next calls, down to
   * their cache keys, provided `enc` tells the cursors apart and neither it
   * nor any parameter name produces the `&` that separates the pairs.
   */
  lemma {:induction false} CorrectedNextPageFollowsCursor(apiResourceName: string, params: map<string, Value>, keys: seq<string>,
                                                         enc: Value -> string, p1: Page, p2: Page)
    requires IsKeyOrder(keys, params)
    requires enc(p1.nextCursor) != enc(p2.nextCursor)
    requires forall v :: '&' !in enc(v)
    requires forall k :: k in params ==> '&' !in k
    ensures var c1 := CorrectedNextPageCall(apiResourceName, params, keys, enc, p1);
      var c2 := CorrectedNextPageCall(apiResourceName, params, keys, enc, p2);
      c1.1 != c2.1 && c1.0 != c2.0
  {
    var n1, n2 := CursorParams(params, p1), CursorParams(params, p2);
    var keys' := CursorKeys(keys, params, p1);
    assert keys' == CursorKeys(keys, params, p2);
    assert n1.Keys == params.Keys + {"cursor"};
    ListKeysDiffer(ListBase(apiResourceName), n1, n2, keys', enc, "cursor");
  }

  /**
   * The continuation never advances: once the first page is in the cache,
   * the `getList` for "the next page" is a fresh hit on the same key and
   * yields the first page again.
   */
  lemma {:induction false} ContinuationRepeatsFirstPage(r: RepositoryBase.Repo, key: string, url: string, params: map<string, Value>,
                                                        ttl: int, now: int, later: int, resp: Http.Response)
    requires RepositoryBase.StartReadStep(r, RepositoryBase.ListRead, key, url, params, ttl, now).1.Issued?
    requires Truthy(resp.body) && now <= later < now + ttl
    ensures var s := RepositoryBase.StartReadStep(r, RepositoryBase.ListRead, key, url, params, ttl, now);
      var c := RepositoryBase.CompleteReadStep(s.0, key, RepositoryBase.Success(resp), now);
      RepositoryBase.StartReadStep(c.0, RepositoryBase.ListRead, key, url, params, ttl, later).1 == RepositoryBase.Cached(resp.body)
  {
    var s := RepositoryBase.StartReadStep(r, RepositoryBase.ListRead, key, url, params, ttl, now);
    var f := s.0.inflight[RepositoryBase.DedupKey(key)];
    assert f.key == key && f.ttl == ttl && f.kind == RepositoryBase.ListRead;
    var c := RepositoryBase.CompleteReadStep(s.0, key, RepositoryBase.Success(resp), now);
    assert CacheStore.Peek(c.0.store, key) == Some(CacheStore.Entry(resp.body, RepositoryBase.KeptEtag(Http.EtagOf(resp.etagHeader), RepositoryBase.EtagOfEntry(f.entry)), now + ttl));
  }

  /** The page stream `getAll` receives as written: its first page, over and over. */
  function Repeated(p: Page, n: nat): (r: seq<Page>)
    ensures |r| == n && forall i :: 0 <= i < n ==> r[i] == p
  {
    seq(n, i => p)
  }

  /**
   * When the first page announces a next one, no number of rounds reaches a
   * last page: every prefix of the stream is still collecting, each round
   * adds the first page's items again, and `reduce` never emits.
   */
  lemma {:induction false} AsWrittenGetAllNeverEnds(p: Page, n: nat)
    requires p.hasNext
    ensures forall i :: 0 <= i < n ==> Repeated(p, n)[i].hasNext
    ensures Collected(Repeated(p, n + 1)) == Flatten(Repeated(p, n)) + Collected([p])
    ensures Flatten(Repeated(p, n + 1)) == Flatten(Repeated(p, n)) + PageItems(p)
  {
    var pages := Repeated(p, n + 1);
    CollectedPrefix(pages, n);
    assert pages[..n] == Repeated(p, n);
    assert pages[n..] == [p];
    FlattenSnoc(Repeated(p, n), p);
    assert Repeated(p, n) + [p] == pages;
  }

  /** Flattening one more page appends its items. */
  lemma {:induction false} FlattenSnoc(pages: seq<Page>, p: Page)
    ensures Flatten(pages + [p]) == Flatten(pages) + PageItems(p)
  {
    if pages != [] {
      assert (pages + [p])[1..] == pages[1..] + [p];
      FlattenSnoc(pages[1..], p);
    }
  }
}
