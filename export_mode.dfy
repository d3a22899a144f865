/**
 * The export mode (a string-backed enum) and the resolver that always
 * answers with one fixed mode.
 */
module ExportModes {
  import opened Php

  /** `enum ExportMode: string` with its two cases. */
  datatype ExportMode = Simple | Full

  /** The backing value of a case. */
  function BackingValue(mode: ExportMode): string {
    match mode
    case Simple => "simple"
    case Full => "full"
  }

  /** `ExportMode::tryFrom($value)`: the case backed by `value`, or null. */
  function TryFrom(value: string): (r: Option<ExportMode>)
    ensures r.Some? ==> BackingValue(r.value) == value
    ensures r.None? ==> forall m: ExportMode :: BackingValue(m) != value
  {
    if value == "simple" then Some(Simple)
    else if value == "full" then Some(Full)
    else None
  }

  /** The exception `ExportMode::from` throws for a value no case has. */
  function NotABackingValue(value: string): Throwable {
    Throwable("ValueError", "\"" + value + "\" is not a valid backing value for enum SixtyEightPublishers\\HealthCheck\\ExportMode", 0)
  }

  /** `ExportMode::from($value)`: like `tryFrom`, but throws instead of giving null. */
  function From(value: string): (r: Outcome<ExportMode>)
    ensures r.Return? <==> TryFrom(value).Some?
    ensures r.Return? ==> r.value == TryFrom(value).value
    ensures r.Throw? ==> r.thrown == NotABackingValue(value)
  {
    match TryFrom(value)
    case Some(m) => Return(m)
    case None => Throw(NotABackingValue(value))
  }

  /** The two backing values differ, so no string names both cases. */
  lemma BackingValuesDistinct(m: ExportMode, n: ExportMode)
    ensures BackingValue(m) == BackingValue(n) <==> m == n
  {
  }

  /** `from` and `tryFrom` turn a case's backing value back into that case. */
  lemma RoundTrip(mode: ExportMode)
    ensures TryFrom(BackingValue(mode)) == Some(mode)
    ensures From(BackingValue(mode)) == Return(mode)
  {
  }

  /** A string is recognised exactly when it is "simple" or "full". */
  lemma Recognised(value: string)
    ensures TryFrom(value).Some? <==> value == "simple" || value == "full"
  {
  }

  /** `StaticExportModeResolver`: a resolver fixed at construction. */
  datatype StaticExportModeResolver = StaticExportModeResolver(exportMode: ExportMode) {

    /** `resolve()`: the mode given at construction, whatever is asked. */
    function Resolve(): ExportMode {
      exportMode
    }
  }

  /** The resolver `HealthChecker` uses when none is given. */
  function DefaultResolver(): StaticExportModeResolver {
    StaticExportModeResolver(Simple)
  }

  /** The resolver answers with its construction mode; the default one with Simple. */
  lemma ResolveReturnsConstructionMode(mode: ExportMode)
    ensures StaticExportModeResolver(mode).Resolve() == mode
    ensures DefaultResolver().Resolve() == Simple
  {
  }
}
