/**
 * Check results as values: the outcome of one service check, the degenerate
 * ping result and the composite of several results, together with the
 * aggregate "multiple results" exception and the array shapes the results
 * export.
 */
module Results {
  import opened Php

  /** `HealthCheckException($message, $code, $previous)`. */
  datatype HealthCheckException = HealthCheckException(message: string, code: int, previous: Option<Throwable>)

  // ---------------------------------------------------------------------
  // ServiceResult
  // ---------------------------------------------------------------------

  /** The four readonly fields of a `ServiceResult`. */
  datatype ServiceResultFields = ServiceResultFields(
    serviceName: string,
    ok: bool,
    detail: Value,
    error: Option<HealthCheckException>)

  /**
   * A `ServiceResult`. Its constructor is private and the two factories are
   * the only way to build one, so the result is ok exactly when it carries
   * no error.
   */
  type ServiceResult = r: ServiceResultFields | r.ok <==> r.error.None?
    witness ServiceResultFields("", true, VArray([]), None)

  /** `ServiceResult::createOk($serviceName, $detail)`. */
  function CreateOk(serviceName: string, detail: Value): (r: ServiceResult)
    ensures r.ok && r.error.None?
    ensures r.serviceName == serviceName && r.detail == detail
  {
    ServiceResultFields(serviceName, true, detail, None)
  }

  /** `ServiceResult::createError($serviceName, $detail, $error)`. */
  function CreateError(serviceName: string, detail: Value, error: HealthCheckException): (r: ServiceResult)
    ensures !r.ok && r.error == Some(error)
    ensures r.serviceName == serviceName && r.detail == detail
  {
    ServiceResultFields(serviceName, false, detail, Some(error))
  }

  /** Every service result is ok exactly when its error is null. */
  lemma ServiceResultOkIffNoError(r: ServiceResult)
    ensures r.ok <==> r.error.None?
  {
  }

  /** `getError()?->getMessage()` of a service result. */
  function ServiceErrorMessage(r: ServiceResult): Option<string> {
    match r.error
    case Some(e) => Some(e.message)
    case None => None
  }

  /** `ServiceResult::toArray()`. */
  function ServiceToArray(r: ServiceResult): (a: seq<(string, Value)>)
    ensures Keys(a) == ServiceKeys
    ensures Lookup(a, "name") == Some(VString(r.serviceName))
    ensures Lookup(a, "is_ok") == Some(VBool(r.ok))
    ensures Lookup(a, "detail") == Some(r.detail)
    ensures Lookup(a, "error") == if r.ok then Some(VNull) else Some(VString(r.error.value.message))
  {
    ServiceEntries(r, r.detail)
  }

  const ServiceKeys := ["name", "is_ok", "detail", "error"]

  /** The four entries of a service result's array, with the given detail. */
  function ServiceEntries(r: ServiceResult, detail: Value): (a: seq<(string, Value)>)
    ensures Keys(a) == ServiceKeys
    ensures Lookup(a, "name") == Some(VString(r.serviceName))
    ensures Lookup(a, "is_ok") == Some(VBool(r.ok))
    ensures Lookup(a, "detail") == Some(detail)
    ensures Lookup(a, "error") == if r.ok then Some(VNull) else Some(VString(r.error.value.message))
  {
    var error := match ServiceErrorMessage(r) case Some(m) => VString(m) case None => VNull;
    ServiceKeysDistinct();
    FourEntries("name", VString(r.serviceName), "is_ok", VBool(r.ok), "detail", detail, "error", error);
    [("name", VString(r.serviceName)), ("is_ok", VBool(r.ok)), ("detail", detail), ("error", error)]
  }

  lemma ServiceKeysDistinct()
    ensures "name" != "is_ok" && "name" != "detail" && "name" != "error"
    ensures "is_ok" != "detail" && "is_ok" != "error" && "detail" != "error"
  {
    assert "name"[0] != "is_ok"[0] && "name"[0] != "detail"[0] && "name"[0] != "error"[0];
    assert "is_ok"[0] != "detail"[0] && "is_ok"[0] != "error"[0] && "detail"[0] != "error"[0];
  }

  /** `ServiceResult::jsonSerialize()`: `toArray()` with the detail cast to an object. */
  function ServiceJsonSerialize(r: ServiceResult): (a: seq<(string, Value)>)
    ensures Keys(a) == Keys(ServiceToArray(r))
    ensures forall k | k != "detail" :: Lookup(a, k) == Lookup(ServiceToArray(r), k)
    ensures Lookup(a, "detail") == Some(CastToObject(r.detail))
    ensures r.detail == VArray([]) ==> Lookup(a, "detail") == Some(VObject([]))
  {
    var a := ServiceEntries(r, CastToObject(r.detail));
    assert forall k | k != "detail" :: Lookup(a, k) == Lookup(ServiceToArray(r), k) by {
      forall k | k != "detail"
        ensures Lookup(a, k) == Lookup(ServiceToArray(r), k)
      {
        if k == "name" || k == "is_ok" || k == "error" {
        } else {
          assert k !in ServiceKeys;
        }
      }
    }
    a
  }

  // ---------------------------------------------------------------------
  // PingResult
  // ---------------------------------------------------------------------

  /** `PingResult`: nothing but the readonly flag. */
  datatype PingResult = PingResult(ok: bool) {

    function GetName(): string {
      "ping"
    }

    function GetDetail(): seq<(string, Value)> {
      []
    }

    function GetError(): Option<HealthCheckException> {
      None
    }

    /** `toArray()` and `jsonSerialize()`: the one key `is_ok`. */
    function ToArray(): seq<(string, Value)> {
      [("is_ok", VBool(ok))]
    }
  }

  /** A ping result reports its flag, the name "ping", no detail and no error. */
  lemma PingResultShape(ok: bool)
    ensures PingResult(ok).ok == ok
    ensures PingResult(ok).GetName() == "ping"
    ensures PingResult(ok).GetDetail() == [] && PingResult(ok).GetError().None?
    ensures Keys(PingResult(ok).ToArray()) == ["is_ok"]
    ensures Lookup(PingResult(ok).ToArray(), "is_ok") == Some(VBool(ok))
  {
  }

  // ---------------------------------------------------------------------
  // Results in general (ResultInterface)
  // ---------------------------------------------------------------------

  /**
   * A value of `ResultInterface`. A composite holds its children in check
   * order and its array export mode.
   */
  datatype Result =
    | Service(service: ServiceResult)
    | Composite(results: seq<Result>, arrayExportMode: string)
    | Ping(ping: PingResult)

  /** `getName()`. */
  function Name(r: Result): string {
    match r
    case Service(s) => s.serviceName
    case Composite(_, _) => "health_check"
    case Ping(_) => "ping"
  }

  /** `isOk()`: a composite is ok when every child is. */
  function IsOk(r: Result): bool {
    match r
    case Service(s) => s.ok
    case Composite(rs, _) => forall i | 0 <= i < |rs| :: IsOk(rs[i])
    case Ping(p) => p.ok
  }

  predicate AllOk(rs: seq<Result>) {
    forall i | 0 <= i < |rs| :: IsOk(rs[i])
  }

  /** `array_filter($results, fn ($r) => !$r->isOk())`, renumbered. */
  function Failing(rs: seq<Result>): (f: seq<Result>)
    ensures forall x :: x in f <==> x in rs && !IsOk(x)
    ensures forall i | 0 <= i < |f| :: exists j :: 0 <= j < |rs| && f[i] == rs[j]
    ensures f == [] <==> AllOk(rs)
    ensures |f| <= |rs|
  {
    if rs == [] then []
    else (if IsOk(rs[0]) then [] else [rs[0]]) + Failing(rs[1..])
  }

  /** Filtering keeps the order of the children. */
  lemma {:induction false} FailingAppend(a: seq<Result>, b: seq<Result>)
    ensures Failing(a + b) == Failing(a) + Failing(b)
  {
    if a != [] {
      assert (a + b)[1..] == a[1..] + b;
      FailingAppend(a[1..], b);
    } else {
      assert a + b == b;
    }
  }

  /** The status of a composite over `rs`. */
  function CompositeStatus(rs: seq<Result>): (s: string)
    ensures s == "ok" <==> AllOk(rs)
    ensures s == "ok" || s == "failed"
  {
    if AllOk(rs) then "ok" else "failed"
  }

  // ---------------------------------------------------------------------
  // MultipleResultsException and getError()
  // ---------------------------------------------------------------------

  const FailedPrefix := "Some health checks failed: \n"

  /** `getError()?->getMessage()` of any result. */
  function MessageOf(r: Result): (m: Option<string>)
    ensures m.Some? <==> !IsOk(r) && !r.Ping?
    decreases r, 0
  {
    match r
    case Service(s) => ServiceErrorMessage(s)
    case Ping(_) => None
    case Composite(rs, _) =>
      var f := Failing(rs);
      if f == [] then None
      else Some(FailedPrefix + Join("\n", seq(|f|, i requires 0 <= i < |f| => LineOf(f[i]))))
  }

  /** One line of the aggregate message: `[<name>]: <message>`, or `?` without an error. */
  function LineOf(r: Result): (line: string)
    ensures |line| >= |Name(r)| + 4 && line[..|Name(r)| + 4] == "[" + Name(r) + "]: "
    decreases r, 1
  {
    "[" + Name(r) + "]: " + match MessageOf(r) case Some(m) => m case None => "?"
  }

  function Lines(rs: seq<Result>): (lines: seq<string>)
    ensures |lines| == |rs|
    ensures forall i | 0 <= i < |rs| :: lines[i] == LineOf(rs[i])
  {
    seq(|rs|, i requires 0 <= i < |rs| => LineOf(rs[i]))
  }

  /** `MultipleResultsException`: the results it was given, as a list. */
  datatype MultipleResultsException = MultipleResultsException(results: seq<Result>) {

    /** The message the constructor hands to the parent exception. */
    function Message(): string {
      FailedPrefix + Join("\n", Lines(results))
    }

    function Code(): int {
      0
    }

    function GetResults(): seq<Result> {
      results
    }
  }

  /** What `getError()` returns: a plain health-check exception or the aggregate. */
  datatype Error =
    | Plain(exception: HealthCheckException)
    | Multiple(multiple: MultipleResultsException)

  function ErrorMessage(e: Error): string {
    match e
    case Plain(x) => x.message
    case Multiple(m) => m.Message()
  }

  /** `getError()` of any result. */
  function ErrorOf(r: Result): (e: Option<Error>)
    ensures e.None? ==> MessageOf(r).None?
    ensures e.Some? ==> MessageOf(r) == Some(ErrorMessage(e.value))
  {
    match r
    case Service(s) =>
      (match s.error case Some(x) => Some(Plain(x)) case None => None)
    case Ping(_) => None
    case Composite(rs, _) =>
      var f := Failing(rs);
      if f == [] then None
      else
        assert seq(|f|, i requires 0 <= i < |f| => LineOf(f[i])) == Lines(f);
        Some(Multiple(MultipleResultsException(f)))
  }

  /** The aggregate message: the fixed first line, then one line per result. */
  lemma MultipleMessageShape(rs: seq<Result>)
    ensures rs == [] ==> MultipleResultsException(rs).Message() == FailedPrefix
    ensures |rs| == 1 ==> MultipleResultsException(rs).Message() == FailedPrefix + LineOf(rs[0])
    ensures MultipleResultsException(rs).Code() == 0
    ensures |rs| == 2 ==> MultipleResultsException(rs).Message() == FailedPrefix + LineOf(rs[0]) + "\n" + LineOf(rs[1])
    ensures MultipleResultsException(rs).GetResults() == rs
  {
    if |rs| == 2 {
      MultipleMessageSnoc([rs[0]], rs[1]);
      assert [rs[0]] + [rs[1]] == rs;
    }
  }

  /** The message over `rs + [r]` is the message over `rs` with one more line. */
  lemma MultipleMessageSnoc(rs: seq<Result>, r: Result)
    requires rs != []
    ensures MultipleResultsException(rs + [r]).Message()
         == MultipleResultsException(rs).Message() + "\n" + LineOf(r)
  {
    LinesSnoc(rs, r);
    JoinSnoc("\n", Lines(rs), LineOf(r));
  }

  lemma LinesSnoc(rs: seq<Result>, r: Result)
    ensures Lines(rs + [r]) == Lines(rs) + [LineOf(r)]
  {
    var a := Lines(rs + [r]);
    var b := Lines(rs) + [LineOf(r)];
    forall i | 0 <= i < |a|
      ensures a[i] == b[i]
    {
      if i < |rs| {
        assert (rs + [r])[i] == rs[i];
      } else {
        assert (rs + [r])[i] == r;
      }
    }
  }

  /**
   * A failed result always has an error except a failed ping result, so `?`
   * appears in the aggregate message only for ping results.
   */
  lemma FailedWithoutErrorIsPing(r: Result)
    requires !IsOk(r)
    ensures ErrorOf(r).None? <==> r.Ping?
    ensures r.Service? ==> LineOf(r) == "[" + r.service.serviceName + "]: " + r.service.error.value.message
  {
  }

  /** `getError()` of a composite: null iff every child is ok, else the failing children in order. */
  lemma CompositeError(rs: seq<Result>, mode: string)
    ensures ErrorOf(Composite(rs, mode)).None? <==> AllOk(rs)
    ensures !AllOk(rs) ==> ErrorOf(Composite(rs, mode)) == Some(Multiple(MultipleResultsException(Failing(rs))))
  {
  }

  // ---------------------------------------------------------------------
  // toArray() and jsonSerialize()
  // ---------------------------------------------------------------------

  /** `toArray()` of any result. */
  function ToArray(r: Result): (a: Value)
    ensures a.VArray?
    ensures r.Service? ==> Keys(a.entries) == ServiceKeys
    ensures r.Ping? ==> Keys(a.entries) == ["is_ok"]
  {
    match r
    case Service(s) => VArray(ServiceToArray(s))
    case Ping(p) => VArray(p.ToArray())
    case Composite(rs, mode) =>
      VArray([("status", VString(CompositeStatus(rs))), ("is_ok", VBool(AllOk(rs)))]
             + if mode == "full" then [("services", VList(seq(|rs|, i requires 0 <= i < |rs| => ToArray(rs[i]))))] else [])
  }

  /** `jsonSerialize()` of any result: a composite and a ping result give their `toArray()`. */
  function JsonSerialize(r: Result): Value {
    match r
    case Service(s) => VArray(ServiceJsonSerialize(s))
    case _ => ToArray(r)
  }

  /**
   * A composite's array always holds the status and the ok flag; it holds
   * `services`, its children's arrays in order, exactly in full mode.
   */
  lemma CompositeToArray(rs: seq<Result>, mode: string)
    ensures ToArray(Composite(rs, mode)).VArray?
    ensures Keys(ToArray(Composite(rs, mode)).entries)
         == ["status", "is_ok"] + (if mode == "full" then ["services"] else [])
    ensures Lookup(ToArray(Composite(rs, mode)).entries, "status") == Some(VString(CompositeStatus(rs)))
    ensures Lookup(ToArray(Composite(rs, mode)).entries, "is_ok") == Some(VBool(AllOk(rs)))
    ensures Lookup(ToArray(Composite(rs, mode)).entries, "services").Some? <==> mode == "full"
    ensures mode == "full" ==>
      var services := Lookup(ToArray(Composite(rs, mode)).entries, "services").value;
      services.VList? && |services.items| == |rs| &&
      forall i | 0 <= i < |rs| :: services.items[i] == ToArray(rs[i])
  {
  }

  /** The export mode changes neither the ok flag, nor the status, nor the error. */
  lemma ModeOnlyAffectsArray(rs: seq<Result>, mode: string, other: string)
    ensures IsOk(Composite(rs, mode)) == IsOk(Composite(rs, other)) == AllOk(rs)
    ensures ErrorOf(Composite(rs, mode)) == ErrorOf(Composite(rs, other))
  {
  }
}
