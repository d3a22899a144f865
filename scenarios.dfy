/**
 * End-to-end uses of the checker with the test fixtures: a healthy `db`
 * and `cache` and an unhealthy `api`, checked in both modes, by selection,
 * with an unknown name, over the ping path and from the console command.
 */
module Scenarios {
  import opened Php
  import opened ExportModes
  import opened Results
  import opened HttpPingReceivers
  import opened ThrottledHttpPingReceivers
  import opened Fixtures
  import opened HealthCheckers
  import opened ConsoleCommands

  function Db(): Checker {
    Healthy(NewHealthyServiceChecker("db"))
  }

  function CacheService(): Checker {
    Healthy(NewHealthyServiceChecker("cache"))
  }

  function Api(): Checker {
    Unhealthy(NewUnhealthyServiceChecker("api"))
  }

  /** The registry after registering `db`, `cache` and `api` in that order. */
  function Registry(): map<string, Checker> {
    map["db" := Db(), "cache" := CacheService(), "api" := Api()]
  }

  const Registered := ["db", "cache", "api"]

  /** Registers the three fixtures in order; every registration succeeds. */
  method Populate(h: HealthChecker)
    requires h.Valid() && h.names == [] && h.serviceCheckers == map[]
    modifies h
    ensures h.Valid() && h.names == Registered && h.serviceCheckers == Registry()
  {
    var r := h.AddServiceChecker(Db());
    r := h.AddServiceChecker(CacheService());
    r := h.AddServiceChecker(Api());
  }

  function DbResult(): ServiceResult {
    CreateOk("db", VArray([]))
  }

  function CacheResult(): ServiceResult {
    CreateOk("cache", VArray([]))
  }

  function ApiResult(): ServiceResult {
    CreateError("api", VArray([]), HealthCheckException(UnhealthyMessage, 0, None))
  }

  /** The three registered names have checkers reporting under those names; `nonexistent` has none. */
  lemma RegistryContents()
    ensures "db" in Registry() && "cache" in Registry() && "api" in Registry() && "nonexistent" !in Registry()
    ensures Registry()["db"] == Db() && Registry()["cache"] == CacheService() && Registry()["api"] == Api()
    ensures KeyedByName(Registry())
  {
  }

  /** Running all three, in any mode: two ok children and the failing `api`, in registration order. */
  lemma RunAllThree(mode: ExportMode, env: Environment)
    ensures Run(Registry(), Registered, mode, env)
         == Return(Composite([Service(DbResult()), Service(CacheResult()), Service(ApiResult())], BackingValue(mode)))
  {
    RegistryContents();
    var r := Run(Registry(), Registered, mode, env);
    assert Registered[0] == "db" && Registered[1] == "cache" && Registered[2] == "api";
    assert r.Return?;
    assert r.value.results[0] == Service(DbResult());
    assert r.value.results[1] == Service(CacheResult());
    assert r.value.results[2] == Service(ApiResult());
    assert r.value.results == [Service(DbResult()), Service(CacheResult()), Service(ApiResult())];
  }

  /** The composite of the three is not ok, and `api` is its one failing child. */
  lemma AllThreeFails(mode: string)
    ensures !IsOk(Composite([Service(DbResult()), Service(CacheResult()), Service(ApiResult())], mode))
    ensures Failing([Service(DbResult()), Service(CacheResult()), Service(ApiResult())]) == [Service(ApiResult())]
  {
    assert DbResult().ok && CacheResult().ok && !ApiResult().ok;
    OnlyLastFails(Service(DbResult()), Service(CacheResult()), Service(ApiResult()), mode);
  }

  lemma OnlyLastFails(a: Result, b: Result, c: Result, mode: string)
    requires IsOk(a) && IsOk(b) && !IsOk(c)
    ensures !IsOk(Composite([a, b, c], mode)) && Failing([a, b, c]) == [c]
  {
    LastOfThreeFails(a, b, c);
    assert [a, b, c][2] == c;
  }

  lemma LastOfThreeFails(a: Result, b: Result, c: Result)
    requires IsOk(a) && IsOk(b) && !IsOk(c)
    ensures Failing([a, b, c]) == [c]
  {
    assert [a, b, c][1..] == [b, c];
    SecondOfTwoFails(b, c);
  }

  lemma SecondOfTwoFails(b: Result, c: Result)
    requires IsOk(b) && !IsOk(c)
    ensures Failing([b, c]) == [c]
  {
    assert [b, c][1..] == [c];
    assert [c][1..] == [];
  }

  /** In simple mode the failing composite exports its status and flag only. */
  method SimpleModeScenario(env: Environment, net: Network, now: int, cache: CacheBehaviour)
    returns (simple: Outcome<Result>)
    ensures simple.Return? && !IsOk(simple.value)
    ensures simple.Return? && ToArray(simple.value) == VArray([("status", VString("failed")), ("is_ok", VBool(false))])
  {
    var h := HealthChecker.CreateDefault();
    Populate(h);
    simple := h.Check(None, NoMode, env, net, now, cache);
    RunAllThree(Simple, env);
    AllThreeFails("simple");
    SimpleArrayOfFailed([Service(DbResult()), Service(CacheResult()), Service(ApiResult())]);
  }

  /** A failed composite in simple mode exports `{status: "failed", is_ok: false}`. */
  lemma SimpleArrayOfFailed(rs: seq<Result>)
    requires !AllOk(rs)
    ensures ToArray(Composite(rs, "simple")) == VArray([("status", VString("failed")), ("is_ok", VBool(false))])
  {
    assert "simple" != "full" by {
      assert "simple"[0] != "full"[0];
    }
    assert [("status", VString("failed")), ("is_ok", VBool(false))] + [] == [("status", VString("failed")), ("is_ok", VBool(false))];
  }

  /** In full mode the composite lists the three children in registration order. */
  method FullModeScenario(env: Environment, net: Network, now: int, cache: CacheBehaviour)
    returns (full: Outcome<Result>)
    ensures full.Return? && full.value == Composite([Service(DbResult()), Service(CacheResult()), Service(ApiResult())], "full")
  {
    var h := HealthChecker.CreateDefault();
    Populate(h);
    full := h.Check(None, Mode(Full), env, net, now, cache);
    RunAllThree(Full, env);
  }

  /** Selecting `db` alone, with the mode named by a string, gives an ok composite of one child. */
  method SelectionScenario(env: Environment, net: Network, now: int, cache: CacheBehaviour)
    returns (onlyDb: Outcome<Result>)
    ensures onlyDb == Return(Composite([Service(DbResult())], "simple"))
    ensures IsOk(onlyDb.value)
  {
    var h := HealthChecker.CreateDefault();
    Populate(h);
    onlyDb := h.Check(Some(["db"]), ModeText("simple"), env, net, now, cache);
    RegistryContents();
    assert onlyDb.value.results[0] == Service(DbResult());
    assert onlyDb.value.results == [Service(DbResult())];
  }

  /** An unknown name after a known one throws for the unknown one; a second `db` is refused. */
  method RejectionScenario(env: Environment, net: Network, now: int, cache: CacheBehaviour)
    returns (unknown: Outcome<Result>, duplicate: Outcome<()>)
    ensures unknown == Throw(UnknownService("nonexistent"))
    ensures duplicate == Throw(DuplicateChecker("db"))
  {
    var h := HealthChecker.CreateDefault();
    Populate(h);
    RegistryContents();
    UnknownNameFailsFast(Registry(), ["db"], "nonexistent", [], Simple, env);
    assert ["db"] + ["nonexistent"] + [] == ["db", "nonexistent"];
    unknown := h.Check(Some(["db", "nonexistent"]), NoMode, env, net, now, cache);
    duplicate := h.AddServiceChecker(Healthy(NewHealthyServiceChecker("db")));
  }

  /** `ping` without a receiver is a failed ping. */
  method PingWithoutReceiverScenario(env: Environment, net: Network, now: int, cache: CacheBehaviour)
    returns (ping: Outcome<Result>)
    ensures ping == Return(Ping(PingResult(false)))
  {
    var h := HealthChecker.CreateDefault();
    Populate(h);
    ping := h.Check(None, ModeText(PingMode), env, net, now, cache);
  }

  /** A catching receiver gets the run in full mode, whatever mode the checker would use otherwise. */
  method CatchingPingScenario(env: Environment, net: Network, now: int, cache: CacheBehaviour)
    returns (ping: Outcome<Result>, caught: Option<Result>)
    ensures ping == Return(Ping(PingResult(true)))
    ensures caught == Some(Composite([Service(DbResult()), Service(CacheResult()), Service(ApiResult())], "full"))
  {
    var catcher := new CatchPingReceiver();
    var h := new HealthChecker(DefaultResolver(), Some(CatchReceiver(catcher)));
    Populate(h);
    RunAllThree(Full, env);
    ping := PingCaught(h, catcher, env, net, now, cache);
    caught := catcher.data;
  }

  /** A catching receiver keeps the full run of every registered checker and reports an ok ping. */
  method PingCaught(h: HealthChecker, c: CatchPingReceiver, env: Environment, net: Network, now: int, cache: CacheBehaviour)
    returns (r: Outcome<Result>)
    requires h.pingReceiver == Some(CatchReceiver(c))
    requires Run(h.serviceCheckers, h.names, Full, env).Return?
    modifies c
    ensures r == Return(Ping(PingResult(true)))
    ensures c.data == Some(Run(h.serviceCheckers, h.names, Full, env).value)
  {
    r := h.Check(None, ModeText(PingMode), env, net, now, cache);
  }

  /** Two pings through a throttled receiver one second apart, with a one-minute window: only the first is sent. */
  method ThrottledPingScenario(env: Environment, net: Network, now: int, url: string)
    returns (first: Outcome<Result>, second: Outcome<Result>)
    ensures first == Return(Ping(HttpPing(NewHttpPingReceiver(url), Run(Registry(), Registered, Full, env), net)))
    ensures second == Return(Ping(PingResult(true)))
  {
    var storage := new CacheStorage();
    var throttled := ThrottledHttpPingReceiver.Create(storage, 60, "last-ping", url);
    var h := new HealthChecker(DefaultResolver(), Some(ThrottledReceiver(throttled)));
    Populate(h);
    first, second := PingTwice(h, throttled, env, net, now);
  }

  /**
   * With an empty cache, a ping at `now` runs every registered checker in
   * full mode and sends the result; a ping one second later, still inside
   * the window, is not sent and is ok.
   */
  method PingTwice(h: HealthChecker, t: ThrottledHttpPingReceiver, env: Environment, net: Network, now: int)
    returns (first: Outcome<Result>, second: Outcome<Result>)
    requires h.pingReceiver == Some(ThrottledReceiver(t))
    requires t.storage.entries == map[] && t.throttleTtl > 1
    modifies t.storage
    ensures first == Return(Ping(HttpPing(t.inner, Run(h.serviceCheckers, h.names, Full, env), net)))
    ensures second == Return(Ping(PingResult(true)))
  {
    first := PingOutsideWindow(h, t, env, net, now);
    assert Load(t.storage.entries, t.Key(), now + 1) == Some(VInt(now));
    second := PingInsideWindow(h, t, env, net, now + 1);
  }

  /** A ping without a recent entry sends the full run and records the time. */
  method PingOutsideWindow(h: HealthChecker, t: ThrottledHttpPingReceiver, env: Environment, net: Network, now: int)
    returns (r: Outcome<Result>)
    requires h.pingReceiver == Some(ThrottledReceiver(t))
    requires !WithinWindow(Load(t.storage.entries, t.Key(), now), now, t.throttleTtl)
    modifies t.storage
    ensures r == Return(Ping(HttpPing(t.inner, Run(h.serviceCheckers, h.names, Full, env), net)))
    ensures t.storage.entries == old(t.storage.entries)[t.Key() := CacheEntry(VInt(now), now + t.throttleTtl)]
  {
    UnthrottledCallPingsAndRecords(t.throttleTtl, t.Key(), t.inner, t.storage.entries, now,
                                   Run(h.serviceCheckers, h.names, Full, env), net);
    r := h.Check(None, ModeText(PingMode), env, net, now, Reliable);
  }

  /** A ping inside the window is ok without being sent, and leaves the cache alone. */
  method PingInsideWindow(h: HealthChecker, t: ThrottledHttpPingReceiver, env: Environment, net: Network, now: int)
    returns (r: Outcome<Result>)
    requires h.pingReceiver == Some(ThrottledReceiver(t))
    requires WithinWindow(Load(t.storage.entries, t.Key(), now), now, t.throttleTtl)
    modifies t.storage
    ensures r == Return(Ping(PingResult(true)))
    ensures t.storage.entries == old(t.storage.entries)
  {
    ThrottledCallSkipsPing(t.throttleTtl, t.Key(), t.inner, t.storage.entries, now, Reliable,
                           Run(h.serviceCheckers, h.names, Full, env), net);
    r := h.Check(None, ModeText(PingMode), env, net, now, Reliable);
  }

  /** A check that is not a ping leaves the throttle's cache alone, so it cannot hold back the next ping. */
  method PlainCheckKeepsThrottle(h: HealthChecker, t: ThrottledHttpPingReceiver, env: Environment, net: Network,
                                 now: int, cache: CacheBehaviour)
    returns (r: Outcome<Result>)
    requires h.pingReceiver == Some(ThrottledReceiver(t))
    modifies t.storage
    ensures r == Run(h.serviceCheckers, h.names, Simple, env)
    ensures t.storage.entries == old(t.storage.entries)
  {
    r := h.Check(None, Mode(Simple), env, net, now, cache);
  }

  /** `check` as the console command sees it, over the populated registry. */
  function ConsoleCheck(env: Environment): HealthCheck {
    (only, mode) => Run(Registry(), Selection(Registered, only), ResolveMode(mode, DefaultResolver()), env)
  }

  /** The console command over the pure run: it names the one failing service and still exits with success. */
  lemma ConsoleScenario(env: Environment)
    ensures Execute(ServiceList([]), None, ConsoleCheck(env)).Return?
    ensures Execute(ServiceList([]), None, ConsoleCheck(env)).value.exitCode == CommandSuccess
    ensures Execute(ServiceList([]), None, ConsoleCheck(env)).value.summary == Warning("Service \"api\" is unhealthy.")
  {
    var children := [Service(DbResult()), Service(CacheResult()), Service(ApiResult())];
    var composite := Composite(children, "simple");
    ConsoleCheckRunsAll(env);
    FailedNamesOfThree();
    ExecuteOverFailure(ServiceList([]), ConsoleCheck(env), composite);
    ApiWarning();
  }

  lemma ApiWarning()
    ensures WarningSentence(["api"]) == "Service \"api\" is unhealthy."
  {
    WarningForOne("api");
  }

  lemma ConsoleCheckRunsAll(env: Environment)
    ensures ConsoleCheck(env)(None, NoMode)
         == Return(Composite([Service(DbResult()), Service(CacheResult()), Service(ApiResult())], "simple"))
  {
    assert ConsoleCheck(env)(None, NoMode) == Run(Registry(), Registered, Simple, env);
    RunAllThree(Simple, env);
  }

  lemma FailedNamesOfThree()
    ensures !IsOk(Composite([Service(DbResult()), Service(CacheResult()), Service(ApiResult())], "simple"))
    ensures FailedNames(Composite([Service(DbResult()), Service(CacheResult()), Service(ApiResult())], "simple")) == ["api"]
  {
    AllThreeFails("simple");
    assert NamesOf([Service(ApiResult())]) == ["api"];
  }

  /** Without an export mode, a failed result from `check` becomes the warning over its failed names. */
  lemma ExecuteOverFailure(services: ServicesArgument, check: HealthCheck, r: Result)
    requires check(NormaliseServices(services), NoMode) == Return(r) && !IsOk(r)
    ensures Execute(services, None, check) == Return(CommandRun(JsonSerialize(r), Warning(WarningSentence(FailedNames(r))), CommandSuccess))
  {
  }
}
