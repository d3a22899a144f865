/**
 * `ServiceConnectionChecker`: a checker that asks a connection pool for a
 * connection to a named service and maps the connection's own health check
 * to a service result. The pool is the caller's oracle.
 */
module ServiceConnectionCheckers {
  import opened Php
  import opened Results

  datatype ServiceConnectionChecker = ServiceConnectionChecker(
    serviceType: string,
    serviceName: Option<string>,
    serviceCheckerName: string)
  {
    function GetName(): string {
      serviceCheckerName
    }
  }

  /** The name derived from the service type and name: `<type>@<name>`, `default` without a name. */
  function DerivedName(serviceType: string, serviceName: Option<string>): string {
    serviceType + "@" + match serviceName case Some(n) => n case None => "default"
  }

  /** The constructor: an explicit checker name wins over the derived one. */
  function NewServiceConnectionChecker(serviceType: string, serviceName: Option<string>, serviceCheckerName: Option<string>)
    : (c: ServiceConnectionChecker)
    ensures c.serviceType == serviceType && c.serviceName == serviceName
    ensures serviceCheckerName.Some? ==> c.GetName() == serviceCheckerName.value
    ensures serviceCheckerName.None? && serviceName.Some? ==> c.GetName() == serviceType + "@" + serviceName.value
    ensures serviceCheckerName.None? && serviceName.None? ==> c.GetName() == serviceType + "@default"
  {
    ServiceConnectionChecker(serviceType, serviceName,
      match serviceCheckerName case Some(n) => n case None => DerivedName(serviceType, serviceName))
  }

  /** What a connection's `performHealthCheck()` reports. */
  datatype ConnectionHealth = ConnectionHealth(ok: bool, statusCode: int, extra: Value)

  /** What `getConnection(serviceType:, name:)` did. */
  datatype Connecting =
    | UnableToCreateConnection(failure: Throwable)
    | Connected(health: ConnectionHealth)

  /** The pool, asked for a connection by service type and service name. */
  type ConnectionPool = (string, Option<string>) -> Connecting

  function StatusCodeMessage(statusCode: int): string {
    "Service respond with status code " + IntToString(statusCode) + "."
  }

  /** `check()`, given the pool. */
  function Check(c: ServiceConnectionChecker, pool: ConnectionPool): (r: ServiceResult)
    ensures r.serviceName == c.GetName()
    ensures pool(c.serviceType, c.serviceName).UnableToCreateConnection? ==>
      var e := pool(c.serviceType, c.serviceName).failure;
      !r.ok && r.detail == VArray([]) && r.error == Some(HealthCheckException(e.message, 0, Some(e)))
    ensures pool(c.serviceType, c.serviceName).Connected? ==>
      var h := pool(c.serviceType, c.serviceName).health;
      r.ok == h.ok && r.detail == h.extra &&
      (!h.ok ==> r.error == Some(HealthCheckException(StatusCodeMessage(h.statusCode), 0, None)))
  {
    match pool(c.serviceType, c.serviceName)
    case UnableToCreateConnection(e) =>
      CreateError(c.GetName(), VArray([]), HealthCheckException(e.message, 0, Some(e)))
    case Connected(h) =>
      if h.ok then CreateOk(c.GetName(), h.extra)
      else CreateError(c.GetName(), h.extra, HealthCheckException(StatusCodeMessage(h.statusCode), 0, None))
  }

  /** The pool is asked about this checker's service only: pools that agree there give the same result. */
  lemma CheckAsksForOwnService(c: ServiceConnectionChecker, pool: ConnectionPool, other: ConnectionPool)
    requires pool(c.serviceType, c.serviceName) == other(c.serviceType, c.serviceName)
    ensures Check(c, pool) == Check(c, other)
  {
  }

  /** The status code appears in decimal in the message, and different codes give different messages. */
  lemma StatusCodeMessageInjective(a: int, b: int)
    requires StatusCodeMessage(a) == StatusCodeMessage(b)
    ensures a == b
  {
    var prefix := "Service respond with status code ";
    var ma, mb := StatusCodeMessage(a), StatusCodeMessage(b);
    assert ma == prefix + IntToString(a) + ".";
    assert ma[|prefix|..|ma| - 1] == IntToString(a);
    assert mb[|prefix|..|mb| - 1] == IntToString(b);
    IntToStringInjective(a, b);
  }
}
