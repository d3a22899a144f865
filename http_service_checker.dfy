/**
 * `HttpServiceChecker`: classifies the response headers a GET request
 * produced. The request itself (`get_headers` with a stream context) is
 * the caller's oracle; this module decides what result the answer means.
 */
module HttpServiceCheckers {
  import opened Php
  import opened Results

  datatype HttpServiceChecker = HttpServiceChecker(serviceName: string, url: string, timeout: int) {
    function GetName(): string {
      serviceName
    }
  }

  /** `new HttpServiceChecker($serviceName, $url)`: the timeout defaults to 5 seconds. */
  function NewHttpServiceChecker(serviceName: string, url: string): (c: HttpServiceChecker)
    ensures c.GetName() == serviceName && c.url == url && c.timeout == 5
  {
    HttpServiceChecker(serviceName, url, 5)
  }

  /** What `@get_headers($url, 0, $context)` did: headers, `false`, or a throw. */
  datatype HeaderFetch =
    | Headers(headers: seq<string>)
    | NoResponse
    | Raised(cause: Throwable)

  /** The regular expression `~^HTTP\/[\d]\.[\d] 200 OK~`, anchored at the start only. */
  predicate IsOkStatusHeader(h: string) {
    |h| >= 15 && h[..5] == "HTTP/" && IsDigit(h[5]) && h[6] == '.' && IsDigit(h[7]) && h[8..15] == " 200 OK"
  }

  /** The detail every error result of this checker carries. */
  const DownDetail := VString("down")

  /**
   * The detail of the ok result. The source calls `createOk` with the name
   * only; the model gives it no detail entries.
   */
  const NoDetail := VArray([])

  /** `serviceIsDown($message, $previous)`: the code is the cause's, or 0 without one. */
  function ServiceIsDown(c: HttpServiceChecker, message: string, previous: Option<Throwable>): (r: ServiceResult)
    ensures !r.ok && r.serviceName == c.serviceName && r.detail == DownDetail
    ensures r.error.value.message == message && r.error.value.previous == previous
    ensures r.error.value.code == if previous.Some? then previous.value.code else 0
  {
    CreateError(c.GetName(), DownDetail,
      HealthCheckException(message, match previous case Some(p) => p.code case None => 0, previous))
  }

  /** The first header as the error message shows it, `[unknown]` without one. */
  function FirstHeaderOrUnknown(headers: seq<string>): string {
    if |headers| > 0 then headers[0] else "[unknown]"
  }

  /** `check()`, given what the header fetch did. */
  function Check(c: HttpServiceChecker, fetched: HeaderFetch): (r: ServiceResult)
    ensures r.serviceName == c.serviceName
    ensures r.ok <==> fetched.Headers? && |fetched.headers| > 0 && IsOkStatusHeader(fetched.headers[0])
    ensures r.ok ==> r.detail == NoDetail
    ensures !r.ok ==> r.detail == DownDetail
    ensures fetched.NoResponse? ==> r.error == Some(HealthCheckException("Can't fetch response.", 0, None))
    ensures fetched.Headers? && !r.ok ==>
      r.error == Some(HealthCheckException("Server respond with status header " + FirstHeaderOrUnknown(fetched.headers), 0, None))
    ensures fetched.Raised? ==>
      r.error == Some(HealthCheckException("[" + fetched.cause.className + "] " + fetched.cause.message,
                                           fetched.cause.code, Some(fetched.cause)))
  {
    match fetched
    case NoResponse => ServiceIsDown(c, "Can't fetch response.", None)
    case Raised(e) => ServiceIsDown(c, "[" + e.className + "] " + e.message, Some(e))
    case Headers(headers) =>
      if |headers| > 0 && IsOkStatusHeader(headers[0]) then CreateOk(c.GetName(), NoDetail)
      else ServiceIsDown(c, "Server respond with status header " + FirstHeaderOrUnknown(headers), None)
  }

  /** Only a one-digit version followed by ` 200 OK` counts; other codes and versions do not. */
  lemma StatusHeaderExamples()
    ensures IsOkStatusHeader("HTTP/1.1 200 OK")
    ensures IsOkStatusHeader("HTTP/2.0 200 OK; extra")
    ensures !IsOkStatusHeader("HTTP/1.1 204 No Content")
    ensures !IsOkStatusHeader("HTTP/10.1 200 OK")
    ensures !IsOkStatusHeader("HTTP/2 200 OK")
    ensures !IsOkStatusHeader("HTTP/1.1 200")
  {
    assert "HTTP/1.1 200 OK"[..5] == "HTTP/" && "HTTP/1.1 200 OK"[8..15] == " 200 OK";
    assert "HTTP/2.0 200 OK; extra"[..5] == "HTTP/" && "HTTP/2.0 200 OK; extra"[8..15] == " 200 OK";
    assert "HTTP/1.1 204 No Content"[8..15] != " 200 OK" by {
      assert "HTTP/1.1 204 No Content"[11] == '4';
    }
    assert !IsDigit("HTTP/10.1 200 OK"[7]);
    assert "HTTP/2 200 OK"[6] != '.';
  }
}
