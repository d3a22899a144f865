/**
 * `HealthCheckResult`, the composite result object: an ordered list of
 * children and an array export mode that `setArrayExportMode` changes in
 * place. Its queries are those of the composite value it stands for
 * (`Snapshot`).
 */
module HealthCheckResults {
  import opened Php
  import opened ExportModes
  import opened Results

  const ArrayExportModeSimple := "simple"
  const ArrayExportModeFull := "full"

  /** `ARRAY_EXPORT_MODES`: the only modes the object accepts. */
  predicate IsArrayExportMode(mode: string) {
    mode == ArrayExportModeSimple || mode == ArrayExportModeFull
  }

  /** The library's own `InvalidArgumentException` for an unsupported mode. */
  function UnsupportedMode(mode: string): Throwable {
    Throwable("SixtyEightPublishers\\HealthCheck\\Exception\\InvalidArgumentException",
              "An array export mode \"" + mode + "\" is not supported.", 0)
  }

  class HealthCheckResult {
    var results: seq<Result>
    var arrayExportMode: string

    ghost predicate Valid()
      reads this
    {
      IsArrayExportMode(arrayExportMode)
    }

    /** The composite value this object stands for. */
    function Snapshot(): Result
      reads this
    {
      Composite(results, arrayExportMode)
    }

    /** Sets both fields; reached only through `New`, after the mode was checked. */
    constructor Init(results: seq<Result>, arrayExportMode: string)
      requires IsArrayExportMode(arrayExportMode)
      ensures Valid()
      ensures this.results == results && this.arrayExportMode == arrayExportMode
    {
      this.results := results;
      this.arrayExportMode := arrayExportMode;
    }

    /**
     * `new HealthCheckResult($results, $arrayExportMode)`: the constructor
     * applies `setArrayExportMode`'s check and throws for any other mode.
     */
    static method New(results: seq<Result>, arrayExportMode: string) returns (r: Outcome<HealthCheckResult>)
      ensures r.Return? <==> IsArrayExportMode(arrayExportMode)
      ensures r.Return? ==> fresh(r.value) && r.value.Valid()
      ensures r.Return? ==> r.value.results == results && r.value.arrayExportMode == arrayExportMode
      ensures r.Throw? ==> r.thrown == UnsupportedMode(arrayExportMode)
    {
      if !IsArrayExportMode(arrayExportMode) {
        return Throw(UnsupportedMode(arrayExportMode));
      }
      var h := new HealthCheckResult.Init(results, arrayExportMode);
      return Return(h);
    }

    /** `new HealthCheckResult()`: no children, simple mode. */
    static method Empty() returns (h: HealthCheckResult)
      ensures fresh(h) && h.Valid()
      ensures h.results == [] && h.arrayExportMode == ArrayExportModeSimple
    {
      h := new HealthCheckResult.Init([], ArrayExportModeSimple);
    }

    /**
     * `setArrayExportMode($mode)`: sets a supported mode and returns this
     * object; any other mode throws and leaves the object as it was.
     */
    method SetArrayExportMode(mode: string) returns (r: Outcome<HealthCheckResult>)
      modifies this
      ensures results == old(results)
      ensures r.Return? <==> IsArrayExportMode(mode)
      ensures r.Return? ==> r.value == this && arrayExportMode == mode
      ensures r.Throw? ==> r.thrown == UnsupportedMode(mode) && arrayExportMode == old(arrayExportMode)
      ensures Valid() <==> r.Return? || old(Valid())
    {
      if !IsArrayExportMode(mode) {
        return Throw(UnsupportedMode(mode));
      }
      arrayExportMode := mode;
      return Return(this);
    }

    /** `withResult($result)`: a new object with the result appended; this one is unchanged. */
    method WithResult(result: Result) returns (h: HealthCheckResult)
      requires Valid()
      ensures fresh(h) && h.Valid()
      ensures h.results == results + [result] && h.arrayExportMode == arrayExportMode
    {
      h := new HealthCheckResult.Init(results + [result], arrayExportMode);
    }

    /** `withExportMode($mode)`: a new object with the same children and the mode's backing value. */
    method WithExportMode(mode: ExportMode) returns (h: HealthCheckResult)
      ensures fresh(h) && h.Valid()
      ensures h.results == results && h.arrayExportMode == BackingValue(mode)
    {
      h := new HealthCheckResult.Init(results, BackingValue(mode));
    }

    function GetName(): string {
      "health_check"
    }

    function GetResults(): seq<Result>
      reads this
    {
      results
    }

    /** `isOk()`: stops at the first child that is not ok. */
    method IsOk() returns (ok: bool)
      ensures ok <==> AllOk(results)
      ensures ok == Results.IsOk(Snapshot())
    {
      var i := 0;
      while i < |results|
        invariant 0 <= i <= |results|
        invariant forall j | 0 <= j < i :: Results.IsOk(results[j])
      {
        if !Results.IsOk(results[i]) {
          return false;
        }
        i := i + 1;
      }
      return true;
    }

    /** `getStatus()`: "failed" at the first child that is not ok, else "ok". */
    method GetStatus() returns (status: string)
      ensures status == "ok" <==> AllOk(results)
      ensures status == "failed" <==> !AllOk(results)
    {
      var i := 0;
      while i < |results|
        invariant 0 <= i <= |results|
        invariant forall j | 0 <= j < i :: Results.IsOk(results[j])
      {
        if !Results.IsOk(results[i]) {
          return "failed";
        }
        i := i + 1;
      }
      return "ok";
    }

    /** `getError()`: null iff no child failed, else the aggregate over the failing children. */
    function GetError(): (e: Option<Error>)
      reads this
      ensures e.None? <==> AllOk(results)
      ensures e.Some? ==> e.value == Multiple(MultipleResultsException(Failing(results)))
      ensures e.Some? ==> forall x :: x in e.value.multiple.GetResults() <==> x in results && !Results.IsOk(x)
    {
      ErrorOf(Snapshot())
    }

    /** `toArray()` (and `jsonSerialize()`): status and ok flag, plus `services` in full mode. */
    function ToArray(): (a: Value)
      reads this
      ensures a.VArray?
      ensures Lookup(a.entries, "is_ok") == Some(VBool(AllOk(results)))
      ensures Lookup(a.entries, "status") == Some(VString(CompositeStatus(results)))
      ensures Lookup(a.entries, "services").Some? <==> arrayExportMode == ArrayExportModeFull
    {
      CompositeToArray(results, arrayExportMode);
      Results.ToArray(Snapshot())
    }
  }
}
