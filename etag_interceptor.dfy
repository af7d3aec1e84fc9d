/**
 * `etagInterceptor` (src/app/core/infra/http/etag.interceptor.ts): turns GET
 * requests into conditional requests (`If-None-Match`, section 13.1.2 of
 * RFC 9110), records every response's entity tag (section 8.8.3) for the
 * request URL, and answers a `304 Not Modified` (section 15.4.5) with the body
 * it last recorded for that URL, as a `200`.
 *
 * The interceptor is split at `next(r)`: `OnRequest` gives the request that is
 * forwarded, `OnEvent` handles each event that comes back for it.
 */
module EtagInterceptor {
  import opened Wrappers
  import opened Json
  import opened Http
  import CacheStore
  import Metrics

  datatype HttpEvent = ResponseEvent(resp: Response) | OtherEvent(kind: string)

  const IF_NONE_MATCH: string := "If-None-Match"

  /** The request forwarded to the next handler, given the ETag stored for its URL. */
  function Conditional(req: Request, stored: Option<string>): (r: Request)
    ensures r.verb == req.verb && r.urlWithParams == req.urlWithParams && r.body == req.body
    ensures req.verb != "GET" ==> r == req
    ensures req.verb == "GET" && stored.Some? && stored.value != "" ==>
      r.headers == req.headers[IF_NONE_MATCH := stored.value]
    ensures stored.None? || stored.value == "" ==> r == req
  {
    if req.verb == "GET" && stored.Some? && stored.value != ""
    then req.(headers := req.headers[IF_NONE_MATCH := stored.value])
    else req
  }

  /** Whether an event is a `304 Not Modified` response. */
  predicate NotModified(ev: HttpEvent) {
    ev.ResponseEvent? && ev.resp.status == 304
  }

  /** The event handed back, given the body recorded for the request URL. */
  function Rewritten(ev: HttpEvent, stored: Value): (r: HttpEvent)
    ensures NotModified(ev) && stored != Undefined ==>
      r.ResponseEvent? && r.resp.status == 200 && r.resp.body == stored
      && r.resp.etagHeader == ev.resp.etagHeader && r.resp.url == ev.resp.url
    ensures !NotModified(ev) || stored == Undefined ==> r == ev
  {
    if NotModified(ev) && stored != Undefined
    then ResponseEvent(ev.resp.(status := 200, body := stored))
    else ev
  }

  /** The URL tables after an event: a response's non-empty ETag is recorded, its body is not. */
  function Recorded(st: CacheStore.CacheState, url: string, ev: HttpEvent): (r: CacheStore.CacheState)
    ensures r.entries == st.entries && r.urlBodies == st.urlBodies
    ensures ev.ResponseEvent? && EtagOf(ev.resp.etagHeader).Some? ==>
      r.urlEtags == st.urlEtags[url := ev.resp.etagHeader.value]
    ensures !ev.ResponseEvent? || EtagOf(ev.resp.etagHeader).None? ==> r == st
  {
    if ev.ResponseEvent? && EtagOf(ev.resp.etagHeader).Some?
    then CacheStore.WithUrlMeta(st, url, EtagOf(ev.resp.etagHeader), Undefined)
    else st
  }

  /**
   * Revalidation end to end: once an ETag and a body are recorded for a URL,
   * the next GET to it carries that ETag, and a 304 for it is answered with that body.
   */
  lemma Revalidation(st: CacheStore.CacheState, url: string, etag: string, body: Value, req: Request, resp: Response)
    requires etag != "" && body != Undefined
    requires req.verb == "GET" && req.urlWithParams == url && resp.status == 304
    ensures var after := CacheStore.WithUrlMeta(st, url, Some(etag), body);
      && Conditional(req, CacheStore.UrlEtag(after, url)).headers[IF_NONE_MATCH] == etag
      && Rewritten(ResponseEvent(resp), CacheStore.UrlBody(after, url)) == ResponseEvent(resp.(status := 200, body := body))
  {
  }

  /** The request half: a GET picks up the ETag stored for its exact `urlWithParams`. */
  method OnRequest(store: CacheStore.Store, req: Request) returns (r: Request)
    ensures r == Conditional(req, CacheStore.UrlEtag(store.State(), req.urlWithParams))
  {
    r := req;
    if req.verb == "GET" {
      var etag := store.GetUrlEtag(req.urlWithParams);
      if etag.Some? && etag.value != "" {
        r := req.(headers := req.headers[IF_NONE_MATCH := etag.value]);
      }
    }
  }

  /** The response half, for the original request `req`: records the ETag, counts and rewrites a 304. */
  method OnEvent(store: CacheStore.Store, req: Request, ev: HttpEvent) returns (r: HttpEvent)
    modifies store, store.metrics
    ensures store.State() == Recorded(old(store.State()), req.urlWithParams, ev)
    ensures store.outbox == old(store.outbox)
    ensures NotModified(ev) ==> store.metrics.counters == Metrics.Bumped(old(store.metrics.counters), Metrics.Etag304, 1)
    ensures !NotModified(ev) ==> store.metrics.counters == old(store.metrics.counters)
    ensures r == Rewritten(ev, CacheStore.UrlBody(old(store.State()), req.urlWithParams))
  {
    if ev.ResponseEvent? {
      var etag := EtagOf(ev.resp.etagHeader);
      if etag.Some? {
        store.SetUrlMeta(req.urlWithParams, etag, Undefined);
      }
      if ev.resp.status == 304 {
        store.metrics.Inc(Metrics.Etag304, 1);
        var cachedBody := store.GetUrlBody(req.urlWithParams);
        if cachedBody != Undefined {
          return ResponseEvent(ev.resp.(status := 200, body := cachedBody));
        }
      }
    }
    return ev;
  }
}
