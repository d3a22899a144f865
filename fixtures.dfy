/**
 * The test doubles the library's own tests build checkers and receivers
 * from: a checker that is always healthy, one that is always unhealthy,
 * and a receiver that keeps what the deferred check returned.
 */
module Fixtures {
  import opened Php
  import opened Results
  import opened HttpPingReceivers

  /** Reports ok with its detail. The groups are kept but read by nothing modelled here. */
  datatype HealthyServiceChecker = HealthyServiceChecker(serviceName: string, detail: seq<(string, Value)>, groups: seq<string>) {
    function GetName(): string {
      serviceName
    }

    function Check(): (r: ServiceResult)
      ensures r.ok && r.serviceName == serviceName && r.detail == VArray(detail)
    {
      CreateOk(serviceName, VArray(detail))
    }
  }

  /** `new HealthyServiceChecker($name)`: no detail, the group `default`. */
  function NewHealthyServiceChecker(serviceName: string): (c: HealthyServiceChecker)
    ensures c.GetName() == serviceName && c.detail == [] && c.groups == ["default"]
  {
    HealthyServiceChecker(serviceName, [], ["default"])
  }

  const UnhealthyMessage := "Service is unhealthy."

  /** Reports an error with its detail and the message "Service is unhealthy.". */
  datatype UnhealthyServiceChecker = UnhealthyServiceChecker(serviceName: string, detail: seq<(string, Value)>, groups: seq<string>) {
    function GetName(): string {
      serviceName
    }

    function Check(): (r: ServiceResult)
      ensures !r.ok && r.serviceName == serviceName && r.detail == VArray(detail)
      ensures r.error == Some(HealthCheckException(UnhealthyMessage, 0, None))
    {
      CreateError(serviceName, VArray(detail), HealthCheckException(UnhealthyMessage, 0, None))
    }
  }

  function NewUnhealthyServiceChecker(serviceName: string): (c: UnhealthyServiceChecker)
    ensures c.GetName() == serviceName && c.detail == [] && c.groups == ["default"]
  {
    UnhealthyServiceChecker(serviceName, [], ["default"])
  }

  /** Keeps the last result the deferred check returned and always reports ok. */
  class CatchPingReceiver {
    var data: Option<Result>

    constructor ()
      ensures data.None?
    {
      data := None;
    }

    /**
     * `pingUsing($closure)`: a check that throws propagates and leaves the
     * kept data as it was.
     */
    method PingUsing(closure: Closure) returns (r: Outcome<PingResult>)
      modifies this
      ensures closure().Return? ==> data == Some(closure().value) && r == Return(PingResult(true))
      ensures closure().Throw? ==> data == old(data) && r == Throw(closure().thrown)
    {
      var produced := closure();
      if produced.Throw? {
        return Throw(produced.thrown);
      }
      data := Some(produced.value);
      return Return(PingResult(true));
    }
  }
}
