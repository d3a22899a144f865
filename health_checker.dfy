/**
 * `HealthChecker`: a registry of service checkers under unique names, in
 * registration order, and the `check` operation that runs a selection of
 * them into a composite result, or hands that run to a ping receiver.
 */
module HealthCheckers {
  import opened Php
  import opened ExportModes
  import opened Results
  import opened HealthCheckResults
  import opened HttpServiceCheckers
  import opened ServiceConnectionCheckers
  import opened HttpPingReceivers
  import opened ThrottledHttpPingReceivers
  import opened Fixtures

  // ---------------------------------------------------------------------
  // Service checkers
  // ---------------------------------------------------------------------

  /** The service checkers this model covers. */
  datatype Checker =
    | Healthy(healthy: HealthyServiceChecker)
    | Unhealthy(unhealthy: UnhealthyServiceChecker)
    | HttpService(http: HttpServiceChecker)
    | ServiceConnection(connection: ServiceConnectionChecker)

  /** `getName()` of a checker. */
  function CheckerName(c: Checker): string {
    match c
    case Healthy(h) => h.GetName()
    case Unhealthy(u) => u.GetName()
    case HttpService(h) => h.GetName()
    case ServiceConnection(s) => s.GetName()
  }

  /** What the checkers ask of the outside world: response headers for a URL and timeout, and connections. */
  datatype Environment = Environment(
    fetchHeaders: (string, int) -> HeaderFetch,
    connectionPool: ConnectionPool)

  /** `check()` of a checker: every checker reports under its own name. */
  function Probe(c: Checker, env: Environment): (r: ServiceResult)
    ensures r.serviceName == CheckerName(c)
  {
    match c
    case Healthy(h) => h.Check()
    case Unhealthy(u) => u.Check()
    case HttpService(h) => HttpServiceCheckers.Check(h, env.fetchHeaders(h.url, h.timeout))
    case ServiceConnection(s) => ServiceConnectionCheckers.Check(s, env.connectionPool)
  }

  // ---------------------------------------------------------------------
  // Ping receivers
  // ---------------------------------------------------------------------

  datatype PingReceiver =
    | CatchReceiver(catcher: CatchPingReceiver)
    | HttpReceiver(http: HttpPingReceiver)
    | ThrottledReceiver(throttled: ThrottledHttpPingReceiver)

  /** The objects a ping may change: the catching receiver itself, or the throttle's cache storage. */
  function ReceiverFootprint(p: Option<PingReceiver>): set<object> {
    match p
    case Some(CatchReceiver(c)) => {c}
    case Some(ThrottledReceiver(t)) => {t.storage}
    case _ => {}
  }

  // ---------------------------------------------------------------------
  // The run behind `check`
  // ---------------------------------------------------------------------

  /** The `$exportMode` argument: an `ExportMode`, any string (`ping` among them), or null. */
  datatype ModeArgument = NoMode | Mode(mode: ExportMode) | ModeText(text: string)

  const PingMode := "ping"

  function UnknownService(name: string): Throwable {
    InvalidArgumentException("Checker for the service named \"" + name + "\" id not defined.")
  }

  function DuplicateChecker(name: string): Throwable {
    InvalidArgumentException("Service checker with the name \"" + name + "\" is already registered.")
  }

  /** `$servicesOnly ?? array_keys($this->serviceCheckers)`. */
  function Selection(registered: seq<string>, servicesOnly: Option<seq<string>>): (s: seq<string>)
    ensures servicesOnly.None? ==> s == registered
    ensures servicesOnly.Some? ==> s == servicesOnly.value
  {
    match servicesOnly
    case None => registered
    case Some(only) => only
  }

  /**
   * An explicit mode wins; a string names a mode by its backing value;
   * null, or a string that names no mode, leaves the choice to the resolver.
   */
  function ResolveMode(arg: ModeArgument, resolver: StaticExportModeResolver): (m: ExportMode)
    ensures arg.Mode? ==> m == arg.mode
    ensures arg.ModeText? && TryFrom(arg.text).Some? ==> m == TryFrom(arg.text).value
    ensures arg.NoMode? || (arg.ModeText? && TryFrom(arg.text).None?) ==> m == resolver.Resolve()
  {
    match arg
    case Mode(mode) => mode
    case ModeText(text) => (match TryFrom(text) case Some(mode) => mode case None => resolver.Resolve())
    case NoMode => resolver.Resolve()
  }

  /** The position of the first name in `names` that has no checker, if any. */
  function FirstUnregistered(names: seq<string>, registry: map<string, Checker>): (r: Option<nat>)
    ensures r.Some? ==> r.value < |names| && names[r.value] !in registry
    ensures r.Some? ==> forall j | 0 <= j < r.value :: names[j] in registry
    ensures r.None? <==> forall j | 0 <= j < |names| :: names[j] in registry
  {
    if names == [] then None
    else if names[0] !in registry then Some(0)
    else match FirstUnregistered(names[1..], registry)
      case None => None
      case Some(k) => Some(k + 1)
  }

  /**
   * The `$check` closure: with every selected name registered, a composite
   * of the selected checkers' results in selection order (a name selected
   * twice is checked twice) in the given mode; otherwise it throws for the
   * first name without a checker.
   */
  function Run(registry: map<string, Checker>, names: seq<string>, mode: ExportMode, env: Environment)
    : (r: Outcome<Result>)
    ensures r.Throw? <==> exists i | 0 <= i < |names| :: names[i] !in registry
    ensures r.Throw? ==> exists i | 0 <= i < |names| ::
      && names[i] !in registry
      && (forall j | 0 <= j < i :: names[j] in registry)
      && r.thrown == UnknownService(names[i])
    ensures r.Return? ==> r.value.Composite? && r.value.arrayExportMode == BackingValue(mode)
    ensures r.Return? ==> |r.value.results| == |names|
    ensures r.Return? ==> forall i | 0 <= i < |names| ::
      names[i] in registry && r.value.results[i] == Service(Probe(registry[names[i]], env))
  {
    match FirstUnregistered(names, registry)
    case Some(i) => Throw(UnknownService(names[i]))
    case None =>
      Return(Composite(seq(|names|, i requires 0 <= i < |names| => Service(Probe(registry[names[i]], env))),
                       BackingValue(mode)))
  }

  /** The checker registered under a name reports under that name. */
  ghost predicate KeyedByName(registry: map<string, Checker>) {
    forall n | n in registry :: CheckerName(registry[n]) == n
  }

  // ---------------------------------------------------------------------
  // The checker object
  // ---------------------------------------------------------------------

  class HealthChecker {
    /** The keys of `$serviceCheckers`, in registration order. */
    var names: seq<string>
    var serviceCheckers: map<string, Checker>
    const exportModeResolver: StaticExportModeResolver
    const pingReceiver: Option<PingReceiver>

    /** The names are unique, exactly the registry's keys, and each is its checker's name. */
    ghost predicate Valid()
      reads this
    {
      && (forall i, j | 0 <= i < j < |names| :: names[i] != names[j])
      && (forall n :: n in serviceCheckers <==> n in names)
      && KeyedByName(serviceCheckers)
    }

    constructor (exportModeResolver: StaticExportModeResolver, pingReceiver: Option<PingReceiver>)
      ensures Valid() && names == [] && serviceCheckers == map[]
      ensures this.exportModeResolver == exportModeResolver && this.pingReceiver == pingReceiver
    {
      names := [];
      serviceCheckers := map[];
      this.exportModeResolver := exportModeResolver;
      this.pingReceiver := pingReceiver;
    }

    /** `new HealthChecker()`: the simple-mode resolver and no ping receiver. */
    static method CreateDefault() returns (h: HealthChecker)
      ensures fresh(h) && h.Valid() && h.names == [] && h.serviceCheckers == map[]
      ensures h.exportModeResolver == DefaultResolver() && h.pingReceiver.None?
    {
      h := new HealthChecker(DefaultResolver(), None);
    }

    /**
     * `addServiceChecker($checker)`: registers the checker under its name;
     * a second checker with a registered name throws and changes nothing.
     */
    method AddServiceChecker(checker: Checker) returns (r: Outcome<()>)
      requires Valid()
      modifies this
      ensures Valid()
      ensures CheckerName(checker) in old(serviceCheckers) ==>
        && r == Throw(DuplicateChecker(CheckerName(checker)))
        && names == old(names) && serviceCheckers == old(serviceCheckers)
      ensures CheckerName(checker) !in old(serviceCheckers) ==>
        && r == Return(())
        && names == old(names) + [CheckerName(checker)]
        && serviceCheckers == old(serviceCheckers)[CheckerName(checker) := checker]
    {
      var name := CheckerName(checker);
      if name in serviceCheckers {
        return Throw(DuplicateChecker(name));
      }
      serviceCheckers := serviceCheckers[name := checker];
      names := names + [name];
      return Return(());
    }

    /**
     * The body of the `$check` closure: starts from an empty composite,
     * appends each selected checker's result, and sets the mode at the end.
     */
    method RunChecks(selected: seq<string>, mode: ExportMode, env: Environment) returns (r: Outcome<Result>)
      ensures r == Run(serviceCheckers, selected, mode, env)
    {
      var result := HealthCheckResult.Empty();
      var i := 0;
      while i < |selected|
        invariant 0 <= i <= |selected|
        invariant result.Valid() && result.arrayExportMode == ArrayExportModeSimple
        invariant forall j | 0 <= j < i :: selected[j] in serviceCheckers
        invariant |result.results| == i
        invariant forall j | 0 <= j < i :: result.results[j] == Service(Probe(serviceCheckers[selected[j]], env))
      {
        var name := selected[i];
        if name !in serviceCheckers {
          assert FirstUnregistered(selected, serviceCheckers) == Some(i);
          return Throw(UnknownService(name));
        }
        result := result.WithResult(Service(Probe(serviceCheckers[name], env)));
        i := i + 1;
      }
      result := result.WithExportMode(mode);
      r := Return(result.Snapshot());
      assert FirstUnregistered(selected, serviceCheckers).None?;
      assert r.value.results == Run(serviceCheckers, selected, mode, env).value.results;
    }

    /**
     * `check($servicesOnly, $exportMode)`. The string `ping` hands a run of
     * the selection in full mode to the ping receiver (a failed ping without
     * one); any other argument runs the selection in the resolved mode.
     */
    method Check(servicesOnly: Option<seq<string>>, exportMode: ModeArgument, env: Environment,
                 net: Network, now: int, cache: CacheBehaviour) returns (r: Outcome<Result>)
      modifies ReceiverFootprint(pingReceiver)
      ensures exportMode != ModeText(PingMode) && pingReceiver.Some? && pingReceiver.value.CatchReceiver? ==>
        unchanged(pingReceiver.value.catcher)
      ensures exportMode != ModeText(PingMode) && pingReceiver.Some? && pingReceiver.value.ThrottledReceiver? ==>
        unchanged(pingReceiver.value.throttled.storage)
      ensures exportMode != ModeText(PingMode) ==>
        r == Run(serviceCheckers, Selection(names, servicesOnly), ResolveMode(exportMode, exportModeResolver), env)
      ensures exportMode == ModeText(PingMode) && pingReceiver.None? ==> r == Return(Ping(PingResult(false)))
      ensures exportMode == ModeText(PingMode) && pingReceiver.Some? && pingReceiver.value.HttpReceiver? ==>
        r == Return(Ping(HttpPing(pingReceiver.value.http, Run(serviceCheckers, Selection(names, servicesOnly), Full, env), net)))
      ensures exportMode == ModeText(PingMode) && pingReceiver.Some? && pingReceiver.value.CatchReceiver? ==>
        var produced := Run(serviceCheckers, Selection(names, servicesOnly), Full, env);
        var c := pingReceiver.value.catcher;
        && (produced.Return? ==> r == Return(Ping(PingResult(true))) && c.data == Some(produced.value))
        && (produced.Throw? ==> r == Throw(produced.thrown) && c.data == old(c.data))
      ensures exportMode == ModeText(PingMode) && pingReceiver.Some? && pingReceiver.value.ThrottledReceiver? ==>
        var t := pingReceiver.value.throttled;
        var step := Throttle(t.throttleTtl, t.Key(), t.inner, old(t.storage.entries), now, cache,
                             Run(serviceCheckers, Selection(names, servicesOnly), Full, env), net);
        r == Return(Ping(step.result)) && t.storage.entries == step.entries
    {
      var selected := Selection(names, servicesOnly);
      if exportMode == ModeText(PingMode) {
        r := PingSelection(selected, env, net, now, cache);
      } else {
        r := RunChecks(selected, ResolveMode(exportMode, exportModeResolver), env);
      }
    }

    /** The `ping` branch of `check`: the receiver, if any, gets the selection's run in full mode. */
    method PingSelection(selected: seq<string>, env: Environment, net: Network, now: int, cache: CacheBehaviour)
      returns (r: Outcome<Result>)
      modifies ReceiverFootprint(pingReceiver)
      ensures pingReceiver.None? ==> r == Return(Ping(PingResult(false)))
      ensures pingReceiver.Some? && pingReceiver.value.HttpReceiver? ==>
        r == Return(Ping(HttpPing(pingReceiver.value.http, Run(serviceCheckers, selected, Full, env), net)))
      ensures pingReceiver.Some? && pingReceiver.value.CatchReceiver? ==>
        var produced := Run(serviceCheckers, selected, Full, env);
        var c := pingReceiver.value.catcher;
        && (produced.Return? ==> r == Return(Ping(PingResult(true))) && c.data == Some(produced.value))
        && (produced.Throw? ==> r == Throw(produced.thrown) && c.data == old(c.data))
      ensures pingReceiver.Some? && pingReceiver.value.ThrottledReceiver? ==>
        var t := pingReceiver.value.throttled;
        var step := Throttle(t.throttleTtl, t.Key(), t.inner, old(t.storage.entries), now, cache,
                             Run(serviceCheckers, selected, Full, env), net);
        r == Return(Ping(step.result)) && t.storage.entries == step.entries
    {
      var registry := serviceCheckers;
      var closure: Closure := () => Run(registry, selected, Full, env);
      match pingReceiver {
        case None =>
          r := Return(Ping(PingResult(false)));
        case Some(CatchReceiver(c)) =>
          var pinged := c.PingUsing(closure);
          r := match pinged case Return(p) => Return(Ping(p)) case Throw(e) => Throw(e);
        case Some(HttpReceiver(h)) =>
          var pinged := HttpPingReceivers.PingUsing(h, closure, net);
          r := Return(Ping(pinged));
        case Some(ThrottledReceiver(t)) =>
          var pinged := t.PingUsing(closure, now, net, cache);
          r := Return(Ping(pinged));
      }
    }
  }

  // ---------------------------------------------------------------------
  // Properties of the run
  // ---------------------------------------------------------------------

  /** Without a selection every registered checker runs, in registration order. */
  lemma NoSelectionRunsAll(registry: map<string, Checker>, names: seq<string>, mode: ExportMode, env: Environment)
    requires forall n :: n in registry <==> n in names
    ensures Run(registry, Selection(names, None), mode, env).Return?
    ensures |Run(registry, Selection(names, None), mode, env).value.results| == |names|
  {
  }

  /** Selecting nothing gives an empty composite, which is ok. */
  lemma EmptySelectionIsOk(registry: map<string, Checker>, mode: ExportMode, env: Environment)
    ensures Run(registry, [], mode, env) == Return(Composite([], BackingValue(mode)))
    ensures IsOk(Run(registry, [], mode, env).value)
  {
  }

  /** In a registry keyed by name, the i-th child of a run reports under the i-th selected name. */
  lemma RunChildrenCarrySelectedNames(registry: map<string, Checker>, names: seq<string>, mode: ExportMode,
                                      env: Environment, i: int)
    requires KeyedByName(registry)
    requires Run(registry, names, mode, env).Return? && 0 <= i < |names|
    ensures Name(Run(registry, names, mode, env).value.results[i]) == names[i]
  {
    assert names[i] in registry;
  }

  /** A run is ok exactly when every selected checker reports ok. */
  lemma RunOkIffAllProbesOk(registry: map<string, Checker>, names: seq<string>, mode: ExportMode, env: Environment)
    requires Run(registry, names, mode, env).Return?
    ensures IsOk(Run(registry, names, mode, env).value)
        <==> forall i | 0 <= i < |names| :: Probe(registry[names[i]], env).ok
  {
    var r := Run(registry, names, mode, env).value;
    if IsOk(r) {
      forall i | 0 <= i < |names|
        ensures Probe(registry[names[i]], env).ok
      {
        assert Results.IsOk(r.results[i]);
      }
    }
  }

  /** A name selected twice is checked twice, giving two children. */
  lemma DuplicateSelectionCheckedTwice(registry: map<string, Checker>, name: string, mode: ExportMode, env: Environment)
    requires name in registry
    ensures Run(registry, [name, name], mode, env).Return?
    ensures Run(registry, [name, name], mode, env).value.results
         == [Service(Probe(registry[name], env)), Service(Probe(registry[name], env))]
  {
  }

  /** An unknown name throws even when a later name is known, and nothing after it is checked. */
  lemma UnknownNameFailsFast(registry: map<string, Checker>, known: seq<string>, unknown: string,
                             rest: seq<string>, mode: ExportMode, env: Environment)
    requires forall j | 0 <= j < |known| :: known[j] in registry
    requires unknown !in registry
    ensures Run(registry, known + [unknown] + rest, mode, env) == Throw(UnknownService(unknown))
  {
    var names := known + [unknown] + rest;
    assert names[|known|] == unknown;
  }

  /** The ping run and a run in any other mode have the same children; only the mode differs. */
  lemma PingRunDiffersOnlyInMode(registry: map<string, Checker>, names: seq<string>, mode: ExportMode, env: Environment)
    ensures Run(registry, names, Full, env).Return? == Run(registry, names, mode, env).Return?
    ensures Run(registry, names, Full, env).Return? ==>
      Run(registry, names, Full, env).value.results == Run(registry, names, mode, env).value.results
  {
  }

  /** A mode named by its backing value resolves to that mode, whatever the resolver says. */
  lemma ModeTextResolvesByBackingValue(mode: ExportMode, resolver: StaticExportModeResolver)
    ensures ResolveMode(ModeText(BackingValue(mode)), resolver) == mode
  {
    RoundTrip(mode);
  }

  /** A string that names no mode falls back to the resolver; by default that is simple mode. */
  lemma UnknownModeTextFallsBack(text: string)
    requires text != "simple" && text != "full"
    ensures ResolveMode(ModeText(text), DefaultResolver()) == Simple
  {
    Recognised(text);
  }
}
