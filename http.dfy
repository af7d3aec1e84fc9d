/**
 * The parts of Angular's `HttpRequest`/`HttpResponse` that the data-access
 * layer reads or writes. Header names are looked up case-insensitively by
 * `HttpHeaders.get`, so the code's three spellings of `ETag` are one lookup
 * here: `etagHeader` is the value of that header when the response has one.
 */
module Http {
  import opened Wrappers
  import opened Json

  datatype Request = Request(
    verb: string,
    urlWithParams: string,
    headers: map<string, string>,
    body: Value)

  datatype Response = Response(
    status: int,
    etagHeader: Option<string>,
    body: Value,
    url: Option<string>)

  /**
   * `headers.get('ETag') || … || undefined`: an empty header value counts as
   * no ETag at all (the entity-tag field of section 8.8.3 of RFC 9110 is never empty).
   */
  function EtagOf(header: Option<string>): (r: Option<string>)
    ensures r.Some? ==> r.value != "" && header == r
    ensures header.Some? && header.value != "" ==> r == header
    ensures header.None? ==> r.None?
  {
    if header.Some? && header.value != "" then header else None
  }
}
