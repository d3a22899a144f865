/**
 * The `health-check` console command: how it turns its `services` argument
 * and `--export-mode` option into a `check` call, and what it reports.
 * Writing to the console is left to the caller; the model returns what
 * would be written.
 */
module ConsoleCommands {
  import opened Php
  import opened ExportModes
  import opened Results
  import opened HealthCheckers

  /** `getArgument('services')`: a list of names, or a value that is not an array. */
  datatype ServicesArgument = ServiceList(items: seq<string>) | NotAList

  /** A non-empty list is passed on as it is; an empty list or anything else means all services. */
  function NormaliseServices(arg: ServicesArgument): (r: Option<seq<string>>)
    ensures r.Some? <==> arg.ServiceList? && arg.items != []
    ensures r.Some? ==> r.value == arg.items
  {
    match arg
    case ServiceList(items) => if items != [] then Some(items) else None
    case NotAList => None
  }

  /** A given option goes through `ExportMode::from`, so a value that names no mode throws; no option is null. */
  function NormaliseExportMode(option: Option<string>): (r: Outcome<Option<ExportMode>>)
    ensures option.None? ==> r == Return(None)
    ensures option.Some? ==> (r.Return? <==> option.value == "simple" || option.value == "full")
    ensures option.Some? && r.Return? ==> r.value.Some? && BackingValue(r.value.value) == option.value
    ensures option.Some? && r.Throw? ==> r.thrown == NotABackingValue(option.value)
  {
    match option
    case None => Return(None)
    case Some(text) =>
      Recognised(text);
      match From(text)
      case Return(mode) => Return(Some(mode))
      case Throw(e) => Throw(e)
  }

  /** The mode argument `check` receives: an export mode or null, never a string. */
  function ModeArgumentOf(mode: Option<ExportMode>): (a: ModeArgument)
    ensures !a.ModeText?
  {
    match mode
    case Some(m) => Mode(m)
    case None => NoMode
  }

  /** The names of the given results, in order. */
  function NamesOf(rs: seq<Result>): (names: seq<string>)
    ensures |names| == |rs|
    ensures forall i | 0 <= i < |rs| :: names[i] == Name(rs[i])
  {
    if rs == [] then [] else [Name(rs[0])] + NamesOf(rs[1..])
  }

  /** The names of the children that are not ok, in order; none unless the result is a composite. */
  function FailedNames(r: Result): (names: seq<string>)
    ensures !r.Composite? ==> names == []
    ensures r.Composite? ==> |names| <= |r.results| && (names == [] <==> AllOk(r.results))
  {
    match r
    case Composite(rs, _) => NamesOf(Failing(rs))
    case _ => []
  }

  const NameSeparator := "\", \""

  /** `sprintf('Service%s%s %s unhealthy.', ...)` over the failed names. */
  function WarningSentence(names: seq<string>): (w: string)
    ensures |w| > 7 && w[..7] == "Service"
    ensures w[7] == 's' <==> |names| != 1
  {
    var joined := Join(NameSeparator, names);
    "Service" + (if |names| == 1 then "" else "s")
      + (if joined == "" then "" else " \"" + joined + "\"")
      + " " + (if |names| == 1 then "is" else "are") + " unhealthy."
  }

  const SuccessMessage := "All services are healthy."

  /** `Command::SUCCESS`. */
  const CommandSuccess := 0

  /** The closing line: the success block, or the warning block. */
  datatype Summary = Success(text: string) | Warning(text: string)

  /** What one run writes (the result as JSON, then the summary) and its exit code. */
  datatype CommandRun = CommandRun(output: Value, summary: Summary, exitCode: int)

  /** `HealthCheckerInterface::check` as the command sees it. */
  type HealthCheck = (Option<seq<string>>, ModeArgument) -> Outcome<Result>

  /**
   * `execute()`: an invalid export mode or a throwing check propagates;
   * otherwise the command writes the result, then the success message when
   * the result is ok and the warning over the failed names when it is not,
   * and exits with success either way.
   */
  function Execute(services: ServicesArgument, exportMode: Option<string>, check: HealthCheck): (r: Outcome<CommandRun>)
    ensures NormaliseExportMode(exportMode).Throw? ==> r == Throw(NormaliseExportMode(exportMode).thrown)
    ensures NormaliseExportMode(exportMode).Return? ==>
      var called := check(NormaliseServices(services), ModeArgumentOf(NormaliseExportMode(exportMode).value));
      && (called.Throw? ==> r == Throw(called.thrown))
      && (called.Return? ==> r.Return? && r.value.output == JsonSerialize(called.value))
      && (called.Return? ==> (r.value.summary == Success(SuccessMessage) <==> IsOk(called.value)))
      && (called.Return? && !IsOk(called.value) ==> r.value.summary == Warning(WarningSentence(FailedNames(called.value))))
    ensures r.Return? ==> r.value.exitCode == CommandSuccess
  {
    match NormaliseExportMode(exportMode)
    case Throw(e) => Throw(e)
    case Return(mode) =>
      match check(NormaliseServices(services), ModeArgumentOf(mode))
      case Throw(e) => Throw(e)
      case Return(result) =>
        Return(CommandRun(
          JsonSerialize(result),
          if IsOk(result) then Success(SuccessMessage) else Warning(WarningSentence(FailedNames(result))),
          CommandSuccess))
  }

  // ---------------------------------------------------------------------
  // Properties
  // ---------------------------------------------------------------------

  /** A composite names failures exactly when it is not ok; other results never name any. */
  lemma FailedNamesIffNotOk(r: Result)
    ensures r.Composite? ==> (FailedNames(r) == [] <==> IsOk(r))
    ensures !r.Composite? ==> FailedNames(r) == []
  {
  }

  /** The failed names are those of the composite's children that are not ok. */
  lemma FailedNamesAreOfFailingChildren(rs: seq<Result>, mode: string, name: string)
    ensures name in FailedNames(Composite(rs, mode)) <==> exists x | x in rs :: !IsOk(x) && Name(x) == name
  {
    var f := Failing(rs);
    var names := NamesOf(f);
    assert FailedNames(Composite(rs, mode)) == names;
    if name in names {
      var i :| 0 <= i < |names| && names[i] == name;
      assert f[i] in f;
      assert f[i] in rs && !IsOk(f[i]) && Name(f[i]) == name;
    }
    if exists x | x in rs :: !IsOk(x) && Name(x) == name {
      var x :| x in rs && !IsOk(x) && Name(x) == name;
      assert x in f;
      var i :| 0 <= i < |f| && f[i] == x;
      assert names[i] == name;
    }
  }

  /** One failed service: `Service "a" is unhealthy.` (just `Service is unhealthy.` for an empty name). */
  lemma WarningForOne(name: string)
    ensures name != "" ==> WarningSentence([name]) == "Service \"" + name + "\" is unhealthy."
    ensures name == "" ==> WarningSentence([name]) == "Service is unhealthy."
  {
  }

  /** Several failed services: `Services "a", "b" are unhealthy.` */
  lemma WarningForSeveral(names: seq<string>)
    requires |names| >= 2
    ensures WarningSentence(names) == "Services \"" + Join(NameSeparator, names) + "\" are unhealthy."
  {
    var joined := Join(NameSeparator, names);
    JoinEmpty(NameSeparator, names);
    assert WarningSentence(names) == "Service" + "s" + (" \"" + joined + "\"") + " " + "are" + " unhealthy.";
    PluralPieces();
    RegroupAround("Service", "s", " \"", joined, "\"", " ", "are", " unhealthy.");
  }

  lemma PluralPieces()
    ensures "Service" + "s" + " \"" == "Services \""
    ensures "\"" + " " + "are" + " unhealthy." == "\" are unhealthy."
  {
  }

  lemma RegroupAround(a: string, b: string, c: string, j: string, d: string, e: string, f: string, g: string)
    ensures a + b + (c + j + d) + e + f + g == (a + b + c) + j + (d + e + f + g)
  {
  }

  /** No failed service names (a failed result that is not a composite): `Services are unhealthy.` */
  lemma WarningForNone()
    ensures WarningSentence([]) == "Services are unhealthy."
  {
  }

  /** Two named failures, written out. */
  lemma WarningForTwoExample()
    ensures WarningSentence(["db", "api"]) == "Services \"db\", \"api\" are unhealthy."
  {
    WarningForSeveral(["db", "api"]);
    JoinTwo(NameSeparator, "db", "api");
    TwoNamesLiteral();
  }

  lemma JoinTwo(separator: string, x: string, y: string)
    ensures Join(separator, [x, y]) == x + separator + y
  {
    assert [x, y][1..] == [y];
  }

  lemma TwoNamesLiteral()
    ensures "Services \"" + ("db" + NameSeparator + "api") + "\" are unhealthy." == "Services \"db\", \"api\" are unhealthy."
  {
  }
}
