# health-check, modelled in Dafny

A model of the aggregation engine in the PHP library `68publishers/health-check`, with proofs about it.

The engine keeps a registry of named service checkers. It runs a selection of them into one composite result, and the composite exports itself in a *simple* or a *full* shape. On request it instead hands a deferred run of the selection, in full mode, to a *ping receiver*. A ping receiver posts the JSON to a monitoring endpoint; the throttled variant does so at most once per time window.

The model covers:

- the result values: service result, composite, ping result, and the aggregate "multiple results" exception with its message;
- the composite result object, with its mutable export mode;
- the checker object, with its registry and its `check` operation;
- the HTTP ping receiver and its throttled wrapper;
- the export-mode enum and the static resolver;
- three small checkers: the HTTP service checker's header classification, `PDOServiceChecker::fromParams`, and the service-connection checker;
- the console command's handling of its arguments and its summary line;
- the test fixtures the library's tests use as stubs: a healthy checker, an unhealthy checker and a receiver that catches the run.

Modules follow the source files:

| file | module | source |
|---|---|---|
| `php.dfy` | `Php` | PHP values the code relies on: arrays as ordered entries, `(string)` of an int, `implode`, `(object)` casts, exceptions as values |
| `export_mode.dfy` | `ExportModes` | `src/ExportMode.php`, `src/StaticExportModeResolver.php` |
| `results.dfy` | `Results` | `src/Result/ServiceResult.php`, `src/Result/PingResult.php`, the composite as a value, `src/Exception/MultipleResultsException.php` |
| `health_check_result.dfy` | `HealthCheckResults` | `src/Result/HealthCheckResult.php` as a class |
| `http_service_checker.dfy` | `HttpServiceCheckers` | `src/ServiceChecker/HttpServiceChecker.php` |
| `pdo_service_checker.dfy` | `PdoServiceCheckers` | `src/ServiceChecker/PDOServiceChecker.php` |
| `service_connection_checker.dfy` | `ServiceConnectionCheckers` | `src/Bridge/Omni/Application/ServiceChecker/ServiceConnectionChecker.php` |
| `http_ping_receiver.dfy` | `HttpPingReceivers` | `src/PingReceiver/HttpPingReceiver.php` |
| `fixtures.dfy` | `Fixtures` | `tests/Fixtures/HealthyServiceChecker.php`, `UnhealthyServiceChecker.php`, `CatchPingReceiver.php` |
| `throttled_http_ping_receiver.dfy` | `ThrottledHttpPingReceivers` | `src/PingReceiver/ThrottledHttpPingReceiver.php` |
| `health_checker.dfy` | `HealthCheckers` | `src/HealthChecker.php` |
| `console_command.dfy` | `ConsoleCommands` | `src/Bridge/Symfony/Console/Command/HealthCheckCommand.php` |
| `scenarios.dfy` | `Scenarios` | end-to-end runs over the fixtures |

How the source's form is kept:

- `HealthChecker` and `HealthCheckResult` are classes.
  - `addServiceChecker` and `setArrayExportMode` change fields in place.
  - The selection loop of `check` and the early-exit loops of `isOk` and `getStatus` are `while` loops. Each is proved against a specification function.
- `ThrottledHttpPingReceiver` is a class whose method updates the cache storage object.
  - It is proved against the step function `Throttle`.
- `HttpPingReceiver::pingUsing` is a method that appends its headers one at a time.
  - It is proved equal to the function `HttpPing`.
- Everything else is functions over datatypes.

Interfaces become closed datatypes, because this model has no traits:

- `Checker` is one of the four checkers modelled.
- `PingReceiver` is one of the three receivers modelled.

How the outside world enters:

- The checkers' I/O is passed in as `Environment`:
  - a header fetch for the HTTP checker;
  - a connection pool for the connection checker.
- The ping's I/O is passed in as `Network`: `json_encode`, `@get_headers` and `base64_decode`.
- The clock is an explicit `now`.
- The behaviour of the cache on a call is a `CacheBehaviour`: it works, one of its steps throws, or it skips the callback.

### Where the code and its documentation differ

The model follows the code in each case.

- **Selection.** The docblock of `HealthCheckerInterface::check` (`src/HealthCheckerInterface.php:24`) says an empty service list means "all". `HealthChecker.php:45` applies the default only to `null`, so `check([])` runs nothing and returns an empty, ok composite. See `HealthCheckers.EmptySelectionIsOk`.
- **Mode strings.**
  - `check` reads a mode string with `ExportMode::tryFrom`, so an unknown string falls back to the resolver.
  - The console command reads its option with `ExportMode::from`, so an unknown option throws a `ValueError` before any check runs.
- **Service results.** `ServiceResult`'s private constructor and its two factories (`src/Result/ServiceResult.php:28-50`) make ok hold exactly when the error is null. The model states this as a subset type.
- **`withExportMode`.** `HealthChecker.php:58` calls `withExportMode`, which `HealthCheckResult.php` does not define. It is modelled as a copy with the mode's backing value set.
- **The connection checker.** It catches only `UnableToCreateConnectionException`.
- **The HTTP service checker.**
  - It passes the string `'down'` as the detail, and calls `createOk` with the name only.
  - The detail is therefore an abstract `Value`: `VString("down")` for errors and an empty array for the ok result.

## Model

| member | source | states |
|---|---|---|
| ExportModes.TryFrom | src/ExportMode.php:7-11 | a found case has the given backing value; null means no case has it |
| ExportModes.From | src/ExportMode.php:7-11 | returns exactly when `tryFrom` finds a case, and returns that case; otherwise throws the ValueError for the value |
| ExportModes.BackingValuesDistinct | src/ExportMode.php:9-10 | two cases have the same backing value iff they are the same case |
| ExportModes.RoundTrip | src/ExportMode.php:7-11 | `tryFrom` and `from` of a case's backing value give back that case |
| ExportModes.Recognised | src/ExportMode.php:7-11 | a string is recognised iff it is "simple" or "full" |
| ExportModes.ResolveReturnsConstructionMode | src/StaticExportModeResolver.php:9-17 | `resolve` returns the construction mode; the default resolver returns Simple |
| Php.CastToObject | src/Result/ServiceResult.php:91 | `(object)` of an array keeps its entries; an object is unchanged; null gives an empty object |
| Results.CreateOk | src/Result/ServiceResult.php:39-42 | the result is ok with no error, and has the given name and detail |
| Results.CreateError | src/Result/ServiceResult.php:47-50 | the result is not ok, carries the given error, and has the given name and detail |
| Results.ServiceResultOkIffNoError | src/Result/ServiceResult.php:28-50 | every service result is ok exactly when its error is null |
| Results.ServiceToArray | src/Result/ServiceResult.php:75-83 | the keys are exactly name, is_ok, detail, error in that order; each holds its field; error is null when ok, else the error's message |
| Results.ServiceJsonSerialize | src/Result/ServiceResult.php:88-94 | same keys as `toArray`; every key except detail holds the same value; detail is cast to an object, so an empty detail is `{}` |
| Results.PingResultShape | src/Result/PingResult.php:11-52 | the flag is the constructor's; the name is "ping"; no detail, no error; the array is exactly `{is_ok: flag}` |
| Results.Failing | src/Result/HealthCheckResult.php:117 | holds exactly the children that are not ok, each one taken from the input; empty iff every child is ok |
| Results.FailingAppend | src/Result/HealthCheckResult.php:117 | filtering keeps the order of the children: filtering a concatenation concatenates the filtered parts |
| Results.CompositeStatus | src/Result/HealthCheckResult.php:101-110 | "ok" iff every child is ok, otherwise "failed" |
| Results.Lines | src/Exception/MultipleResultsException.php:22 | one line per result, in order, each that result's own `[name]: message` line |
| Results.MessageOf | src/Result/HealthCheckResult.php:115-120 | definition: `getError()?->getMessage()` of any result; there is a message iff the result is not ok and is not a ping result |
| Results.LineOf | src/Exception/MultipleResultsException.php:22 | definition: `[<name>]: <message>`, or `?` when there is no error; every line starts with `[<name>]: ` |
| Results.ToArray | src/Result/HealthCheckResult.php:125-137 | definition: `toArray()` of any result; always an array; a service result has the keys name, is_ok, detail, error; a ping result has only is_ok |
| Results.ErrorOf | src/Result/HealthCheckResult.php:115-120 | no error means no message; an error's message is the message the result reports |
| Results.MultipleMessageShape | src/Exception/MultipleResultsException.php:17-33 | with no results the message is the fixed first line alone; with one result it is followed by that result's line; with two, by both lines separated by a newline; the code is 0; `getResults` returns the results given |
| Results.MultipleMessageSnoc | src/Exception/MultipleResultsException.php:22 | one more failing result adds a newline and its line to the message |
| Results.FailedWithoutErrorIsPing | src/Exception/MultipleResultsException.php:22 | a failed result has no error only if it is a ping result, so `?` marks ping results only; a service's line carries its error message |
| Results.CompositeError | src/Result/HealthCheckResult.php:115-120 | a composite's error is null iff every child is ok; otherwise it is the aggregate over the failing children in order |
| Results.CompositeToArray | src/Result/HealthCheckResult.php:125-137 | keys are status and is_ok, plus services exactly in full mode; services are the children's arrays in order |
| Results.ModeOnlyAffectsArray | src/Result/HealthCheckResult.php:87-120 | the export mode changes neither the ok flag nor the error |
| HealthCheckResults.HealthCheckResult.Init | src/Result/HealthCheckResult.php:30-34 | a supported mode gives an object holding the given children and mode |
| HealthCheckResults.HealthCheckResult.New | src/Result/HealthCheckResult.php:30-34 | construction succeeds iff the mode is supported; otherwise it throws the unsupported-mode exception |
| HealthCheckResults.HealthCheckResult.Empty | src/Result/HealthCheckResult.php:30 | the default object has no children and simple mode |
| HealthCheckResults.HealthCheckResult.SetArrayExportMode | src/Result/HealthCheckResult.php:62-74 | a supported mode is set and the object itself is returned; any other mode throws and leaves the mode as it was; the children never change |
| HealthCheckResults.HealthCheckResult.WithResult | src/Result/HealthCheckResult.php:41-47 | a fresh object with the result appended and the same mode; this object is unchanged |
| HealthCheckResults.HealthCheckResult.WithExportMode | src/HealthChecker.php:58 | a fresh object with the same children and the mode's backing value |
| HealthCheckResults.HealthCheckResult.IsOk | src/Result/HealthCheckResult.php:87-96 | the early-exit loop answers true iff every child is ok, which is the composite's ok flag |
| HealthCheckResults.HealthCheckResult.GetStatus | src/Result/HealthCheckResult.php:101-110 | the early-exit loop answers "ok" iff every child is ok, and "failed" otherwise |
| HealthCheckResults.HealthCheckResult.GetError | src/Result/HealthCheckResult.php:115-120 | null iff no child failed; otherwise the aggregate whose results are exactly the failing children |
| HealthCheckResults.HealthCheckResult.ToArray | src/Result/HealthCheckResult.php:125-145 | is_ok is the children's AND, status is the derived status, and services is present exactly in full mode |
| HttpServiceCheckers.NewHttpServiceChecker | src/ServiceChecker/HttpServiceChecker.php:25-30 | keeps name and URL; the timeout defaults to 5 |
| HttpServiceCheckers.ServiceIsDown | src/ServiceChecker/HttpServiceChecker.php:75-82 | an error result with detail `down`, the message and the cause; the code is the cause's code, or 0 without a cause |
| HttpServiceCheckers.Check | src/ServiceChecker/HttpServiceChecker.php:43-67 | ok iff the first header matches `HTTP/d.d 200 OK`; a failed fetch, any other first header (or `[unknown]`) and a caught throwable each give their message, code and previous; the name is the checker's |
| HttpServiceCheckers.StatusHeaderExamples | src/ServiceChecker/HttpServiceChecker.php:59 | the pattern accepts one-digit versions followed by ` 200 OK`, and rejects 204, two-digit versions, a missing minor version and a missing `OK` |
| PdoServiceCheckers.NewPdoServiceChecker | src/ServiceChecker/PDOServiceChecker.php:19-26 | no user, no password, no options, and the name "database" |
| PdoServiceCheckers.FirstUnset | src/ServiceChecker/PDOServiceChecker.php:33-40 | the least position of a key that is not set, or none iff every key is set |
| PdoServiceCheckers.FromParams | src/ServiceChecker/PDOServiceChecker.php:31-54 | throws iff a required key is unset, naming the first of driver, host, port, dbname that is; otherwise builds the DSN from the four, takes user and password (null when missing) and options (`[]` when missing), and is named "database" |
| PdoServiceCheckers.AllRequiredSetSucceeds | src/ServiceChecker/PDOServiceChecker.php:33-40 | with the four required keys set the factory succeeds, whatever the optional keys hold |
| ServiceConnectionCheckers.NewServiceConnectionChecker | src/Bridge/Omni/Application/ServiceChecker/ServiceConnectionChecker.php:19-26 | an explicit checker name wins; otherwise `type@name`, with `default` when the service name is null |
| ServiceConnectionCheckers.Check | src/Bridge/Omni/Application/ServiceChecker/ServiceConnectionChecker.php:33-68 | a failure to connect gives an error with empty detail, the failure's message, code 0 and the failure as previous; otherwise ok is the connection's flag and detail its extra, with the status-code message when not ok; the name is the checker's |
| ServiceConnectionCheckers.CheckAsksForOwnService | src/Bridge/Omni/Application/ServiceChecker/ServiceConnectionChecker.php:36-39 | the pool is asked about this checker's type and name only |
| ServiceConnectionCheckers.StatusCodeMessageInjective | src/Bridge/Omni/Application/ServiceChecker/ServiceConnectionChecker.php:62-65 | the message spells the status code in decimal: different codes give different messages |
| HttpPingReceivers.NewHttpPingReceiver | src/PingReceiver/HttpPingReceiver.php:23-30 | POST, no headers, timeout 5, no extra data |
| HttpPingReceivers.Payload | src/PingReceiver/HttpPingReceiver.php:35-40 | definition: the document `{health_check: {result: <the run's JSON form>, extra: (object) extra}}`; an array with one entry |
| HttpPingReceivers.PayloadShape | src/PingReceiver/HttpPingReceiver.php:35-40 | the document has only `health_check`, holding `result` (the run's JSON form) and then `extra` (as an object) |
| HttpPingReceivers.TargetUrl | src/PingReceiver/HttpPingReceiver.php:57 | the URL is used as is iff it starts with `http://` or `https://`; otherwise it is base64-decoded |
| HttpPingReceivers.RequestContextShape | src/PingReceiver/HttpPingReceiver.php:42-54 | errors are ignored; the method, timeout and body are the configured ones; the headers are the configured ones in order, then the content type, then the body length |
| HttpPingReceivers.DigitRun | src/PingReceiver/HttpPingReceiver.php:63 | the counted prefix is all digits and cannot be extended |
| HttpPingReceivers.SpaceRun | src/PingReceiver/HttpPingReceiver.php:63 | the counted prefix is all white space and cannot be extended |
| HttpPingReceivers.StatusCode | src/PingReceiver/HttpPingReceiver.php:63-65 | definition: the code captured by `#^HTTP/\d+\.\d+\s+(\d{3})#` from the first header, read as an int; a code is found only on a line starting `HTTP/` and is at most 999 |
| HttpPingReceivers.MajorVersion | src/PingReceiver/HttpPingReceiver.php:63 | definition: after `HTTP/`, a maximal run of one or more digits and then a dot, the rest going to `MinorVersion`; any code found is at most 999 |
| HttpPingReceivers.MinorVersion | src/PingReceiver/HttpPingReceiver.php:63 | definition: a maximal run of one or more digits, the rest going to `CodeAfterSpaces`; any code found is at most 999 |
| HttpPingReceivers.CodeAfterSpaces | src/PingReceiver/HttpPingReceiver.php:63-64 | definition: a maximal run of one or more white-space characters, then three digits, whose value is the code; the code is at most 999 |
| HttpPingReceivers.SplitStatusLine | src/PingReceiver/HttpPingReceiver.php:63-64 | a line from which a code is read has the pattern's shape (version digits, dot, digits, white space, three digits), and the code is the value of those three digits |
| HttpPingReceivers.StatusCodeIffParts | src/PingReceiver/HttpPingReceiver.php:63-64 | both directions: a code is read from a line iff the line has the pattern's shape with three digits of that value |
| HttpPingReceivers.HttpPing | src/PingReceiver/HttpPingReceiver.php:32-75 | definition: a throwing check, a failed encoding or a response without a 2xx status line give a failed ping; an ok ping implies the check returned and its payload was encoded |
| HttpPingReceivers.PingUsing | src/PingReceiver/HttpPingReceiver.php:32-75 | the method, which appends its headers one at a time, reports exactly `HttpPing` of what the check produced |
| HttpPingReceivers.SentPing | src/PingReceiver/HttpPingReceiver.php:56-69 | once encoded, the ping is ok iff the first response header announces a 2xx status |
| HttpPingReceivers.FailuresBeforeSendingAreNotOk | src/PingReceiver/HttpPingReceiver.php:70-74 | a check that throws, or a payload that cannot be encoded, gives a failed ping |
| HttpPingReceivers.PingOkIffSuccessStatus | src/PingReceiver/HttpPingReceiver.php:56-69 | once encoded, the ping is ok iff the response has a first header of the form `HTTP/<digits>.<digits>`, white space and three digits reading between 200 and 299 |
| HttpPingReceivers.DigitRunOfDigits | src/PingReceiver/HttpPingReceiver.php:63 | digits followed by a non-digit are counted exactly |
| HttpPingReceivers.SpaceRunOfSpaces | src/PingReceiver/HttpPingReceiver.php:63 | white space followed by a non-space is counted exactly |
| HttpPingReceivers.CodeAfterSpacesOfParts | src/PingReceiver/HttpPingReceiver.php:63 | after white space, the three digits that follow are the code |
| HttpPingReceivers.MinorVersionOfParts | src/PingReceiver/HttpPingReceiver.php:63 | the minor version runs up to the white space |
| HttpPingReceivers.MajorVersionOfParts | src/PingReceiver/HttpPingReceiver.php:63 | the major version runs up to the dot |
| HttpPingReceivers.StatusCodeOfParts | src/PingReceiver/HttpPingReceiver.php:63-65 | a line assembled from version digits, white space and three digits reads back as those digits' value |
| HttpPingReceivers.StatusLineRoundTrip | src/PingReceiver/HttpPingReceiver.php:63-65 | `HTTP/<major>.<minor>`, white space and a three-digit code, followed by anything, parse back as that code |
| HttpPingReceivers.StatusCodeOfRenderedLine | src/PingReceiver/HttpPingReceiver.php:63-68 | every code from 100 to 999 printed after a status line reads back as itself |
| HttpPingReceivers.OkStatusHeaderIs200 | src/PingReceiver/HttpPingReceiver.php:63 | a header the HTTP service checker accepts gives status 200 here too |
| Fixtures.HealthyServiceChecker.Check | tests/Fixtures/HealthyServiceChecker.php:34-40 | an ok result with the checker's name and detail |
| Fixtures.NewHealthyServiceChecker | tests/Fixtures/HealthyServiceChecker.php:17-22 | no detail and the group `default` |
| Fixtures.UnhealthyServiceChecker.Check | tests/Fixtures/UnhealthyServiceChecker.php:35-42 | an error result with the checker's name and detail, and the exception "Service is unhealthy." with code 0 |
| Fixtures.NewUnhealthyServiceChecker | tests/Fixtures/UnhealthyServiceChecker.php:18-23 | no detail and the group `default` |
| Fixtures.CatchPingReceiver.constructor | tests/Fixtures/CatchPingReceiver.php:13 | nothing is kept yet |
| Fixtures.CatchPingReceiver.PingUsing | tests/Fixtures/CatchPingReceiver.php:15-22 | keeps what the check returned and reports ok; a check that throws propagates and leaves the kept data alone |
| ThrottledHttpPingReceivers.Load | src/PingReceiver/ThrottledHttpPingReceiver.php:53 | a stored value is found iff its entry exists and has not expired |
| ThrottledHttpPingReceivers.Throttle | src/PingReceiver/ThrottledHttpPingReceiver.php:49-85 | definition: one `pingUsing` at `now` as a step on the cache entries; the inner receiver runs only when the load did not throw and the last ping is outside the window; when it does not run, the entries are unchanged |
| ThrottledHttpPingReceivers.ThrottledHttpPingReceiver.constructor | src/PingReceiver/ThrottledHttpPingReceiver.php:25-47 | the inner receiver gets the endpoint settings; the cache gets the storage and the namespace |
| ThrottledHttpPingReceivers.ThrottledHttpPingReceiver.Create | src/PingReceiver/ThrottledHttpPingReceiver.php:25-47 | defaults: POST, no headers, 5 seconds, namespace `ThrottledHttpPingReceiver`, no extra data |
| ThrottledHttpPingReceivers.ThrottledHttpPingReceiver.PingUsing | src/PingReceiver/ThrottledHttpPingReceiver.php:49-85 | the result and the new cache contents are those of the step function `Throttle` on the old contents |
| ThrottledHttpPingReceivers.ThrottledCallSkipsPing | src/PingReceiver/ThrottledHttpPingReceiver.php:52-59 | within the window the ping is ok, nothing is sent and the cache is unchanged |
| ThrottledHttpPingReceivers.UnthrottledCallPingsAndRecords | src/PingReceiver/ThrottledHttpPingReceiver.php:61-77 | outside the window a working cache sends the ping, returns its result, and records `now` with expiry `now + ttl` whatever the ping reported |
| ThrottledHttpPingReceivers.NonIntegerEntryDoesNotThrottle | src/PingReceiver/ThrottledHttpPingReceiver.php:55 | a cached value that is not an int never throttles |
| ThrottledHttpPingReceivers.CacheFailureIsNotOk | src/PingReceiver/ThrottledHttpPingReceiver.php:80-84 | a cache that throws gives a failed ping |
| ThrottledHttpPingReceivers.SecondPingWithinWindowIsThrottled | src/PingReceiver/ThrottledHttpPingReceiver.php:52-71 | after a recorded ping at t0, a request before t0 + ttl is not sent and is ok, whatever the first ping reported |
| ThrottledHttpPingReceivers.WindowEndsAfterTtl | src/PingReceiver/ThrottledHttpPingReceiver.php:55-71 | from t0 + ttl on (elapsed equal to the ttl included) the ping is sent again |
| ThrottledHttpPingReceivers.OnlyOwnEntryChanges | src/PingReceiver/ThrottledHttpPingReceiver.php:63-71 | entries under other keys are never touched |
| HealthCheckers.Probe | src/HealthChecker.php:55 | every checker reports under its own name |
| HealthCheckers.Selection | src/HealthChecker.php:45 | null selects every registered name in order; a list is used as given |
| HealthCheckers.ResolveMode | src/HealthChecker.php:73-75 | an explicit mode wins; a string naming a mode gives that mode; null or any other string gives the resolver's mode |
| HealthCheckers.FirstUnregistered | src/HealthChecker.php:47-53 | the least position of a name without a checker, or none iff every name has one |
| HealthCheckers.Run | src/HealthChecker.php:43-59 | throws iff a selected name is unregistered, for the first such name; otherwise a composite in the given mode with one child per selected name, in order, each that checker's result |
| HealthCheckers.HealthChecker.constructor | src/HealthChecker.php:21-25 | empty registry with the given resolver and receiver |
| HealthCheckers.HealthChecker.CreateDefault | src/HealthChecker.php:21-25 | the default resolver answers Simple and there is no receiver |
| HealthCheckers.HealthChecker.AddServiceChecker | src/HealthChecker.php:27-39 | a registered name throws the duplicate-name exception and changes nothing; otherwise the checker is added under its name, at the end of the order; names stay unique |
| HealthCheckers.HealthChecker.RunChecks | src/HealthChecker.php:43-59 | the loop over selected names gives exactly `Run` |
| HealthCheckers.HealthChecker.Check | src/HealthChecker.php:41-76 | outside ping mode it is the run in the resolved mode and the receiver's state is unchanged; `ping` without a receiver is a failed ping and changes nothing; with a receiver it is that receiver's answer to the full-mode run of the same selection |
| HealthCheckers.NoSelectionRunsAll | src/HealthChecker.php:45-56 | without a selection every registered checker runs, giving one child each |
| HealthCheckers.EmptySelectionIsOk | src/HealthChecker.php:45 | an empty list runs nothing and gives an empty composite, which is ok |
| HealthCheckers.RunChildrenCarrySelectedNames | src/HealthChecker.php:47-55 | in a registry keyed by name, the i-th child reports under the i-th selected name |
| HealthCheckers.RunOkIffAllProbesOk | src/HealthChecker.php:47-58 | a run is ok iff every selected checker reports ok |
| HealthCheckers.DuplicateSelectionCheckedTwice | src/HealthChecker.php:47-55 | a name selected twice is checked twice |
| HealthCheckers.UnknownNameFailsFast | src/HealthChecker.php:47-53 | an unknown name after known ones throws for that name, whatever follows |
| HealthCheckers.PingRunDiffersOnlyInMode | src/HealthChecker.php:68-69 | the full-mode run a receiver gets has the same outcome and children as a run in any other mode |
| HealthCheckers.ModeTextResolvesByBackingValue | src/HealthChecker.php:73 | a mode's backing value resolves to that mode whatever the resolver says |
| HealthCheckers.UnknownModeTextFallsBack | src/HealthChecker.php:73-75 | a string that names no mode gives Simple under the default resolver |
| ConsoleCommands.NormaliseServices | src/Bridge/Symfony/Console/Command/HealthCheckCommand.php:56 | a non-empty list is passed on unchanged; anything else means all services |
| ConsoleCommands.NormaliseExportMode | src/Bridge/Symfony/Console/Command/HealthCheckCommand.php:57 | no option gives null; an option succeeds iff it is "simple" or "full", giving the mode with that backing value; any other option throws |
| ConsoleCommands.ModeArgumentOf | src/Bridge/Symfony/Console/Command/HealthCheckCommand.php:57 | the command passes a mode or null, never a string, so it never asks for a ping |
| ConsoleCommands.NamesOf | src/Bridge/Symfony/Console/Command/HealthCheckCommand.php:71-74 | one name per result, in order |
| ConsoleCommands.FailedNames | src/Bridge/Symfony/Console/Command/HealthCheckCommand.php:65-75 | definition: the names of the failing children of a composite, in order; none for any other result; none exactly when every child is ok |
| ConsoleCommands.WarningSentence | src/Bridge/Symfony/Console/Command/HealthCheckCommand.php:69-82 | definition: `sprintf('Service%s%s %s unhealthy.', ...)` over the joined names; it always starts with `Service`, plural exactly when the number of names is not one |
| ConsoleCommands.Execute | src/Bridge/Symfony/Console/Command/HealthCheckCommand.php:49-86 | an invalid option or a throwing check propagates; otherwise the output is the JSON form, the summary is the success message iff the result is ok and otherwise the warning over the failed names; the exit code is always success |
| ConsoleCommands.FailedNamesIffNotOk | src/Bridge/Symfony/Console/Command/HealthCheckCommand.php:65-68 | a composite names failures iff it is not ok; other results never name any |
| ConsoleCommands.FailedNamesAreOfFailingChildren | src/Bridge/Symfony/Console/Command/HealthCheckCommand.php:65-75 | a name is listed iff some child with that name is not ok |
| ConsoleCommands.WarningForOne | src/Bridge/Symfony/Console/Command/HealthCheckCommand.php:77-82 | one failure reads `Service "a" is unhealthy.` (or `Service is unhealthy.` for an empty name) |
| ConsoleCommands.WarningForSeveral | src/Bridge/Symfony/Console/Command/HealthCheckCommand.php:69-82 | two or more failures read `Services "a", "b" are unhealthy.`, joined by `", "` |
| ConsoleCommands.WarningForNone | src/Bridge/Symfony/Console/Command/HealthCheckCommand.php:77-82 | no names read `Services are unhealthy.` |
| ConsoleCommands.WarningForTwoExample | src/Bridge/Symfony/Console/Command/HealthCheckCommand.php:69-82 | two failures, written out |
| Scenarios.Populate | src/HealthChecker.php:27-39 | registering `db`, `cache` and `api` succeeds and gives that order |
| Scenarios.RegistryContents | src/HealthChecker.php:38 | the three names are registered under their own checkers; `nonexistent` is not |
| Scenarios.RunAllThree | src/HealthChecker.php:43-59 | the run of all three gives the two ok results and the failing `api`, in registration order |
| Scenarios.AllThreeFails | src/Result/HealthCheckResult.php:87-96 | that composite is not ok and `api` is its only failing child |
| Scenarios.OnlyLastFails | src/Result/HealthCheckResult.php:87-120 | with only the last of three children failing, the composite is not ok and fails on that child alone |
| Scenarios.SimpleArrayOfFailed | src/Result/HealthCheckResult.php:125-137 | a failed composite in simple mode exports `{status: failed, is_ok: false}` |
| Scenarios.SimpleModeScenario | src/HealthChecker.php:73-75 | with no mode the default resolver gives simple mode, so only status and flag are exported |
| Scenarios.FullModeScenario | src/HealthChecker.php:41-76 | full mode lists the three children in registration order |
| Scenarios.SelectionScenario | src/HealthChecker.php:45-75 | selecting `db` with the mode named as a string gives an ok composite of one child |
| Scenarios.RejectionScenario | src/HealthChecker.php:47-53 | an unknown name after a known one throws for the unknown one; a second `db` is refused |
| Scenarios.PingWithoutReceiverScenario | src/HealthChecker.php:61-66 | `ping` without a receiver is a failed ping |
| Scenarios.CatchingPingScenario | src/HealthChecker.php:68-70 | a catching receiver gets the full-mode run and reports ok |
| Scenarios.PingCaught | src/HealthChecker.php:68-70 | a catching receiver keeps the full run of every registered checker |
| Scenarios.ThrottledPingScenario | src/PingReceiver/ThrottledHttpPingReceiver.php:52-71 | two pings one second apart in a one-minute window: the first is sent, the second is not and is ok |
| Scenarios.PingTwice | src/PingReceiver/ThrottledHttpPingReceiver.php:52-71 | with an empty cache the first ping sends the full run and the next one, inside the window, is ok without sending |
| Scenarios.PingOutsideWindow | src/PingReceiver/ThrottledHttpPingReceiver.php:61-77 | without a recent entry the checker's ping sends the full run and records the time |
| Scenarios.PingInsideWindow | src/PingReceiver/ThrottledHttpPingReceiver.php:52-59 | inside the window the checker's ping is ok and the cache is left alone |
| Scenarios.PlainCheckKeepsThrottle | src/HealthChecker.php:61-76 | a check that is not a ping returns the run and leaves the throttle's cache as it was |
| Scenarios.ConsoleScenario | src/Bridge/Symfony/Console/Command/HealthCheckCommand.php:62-85 | an empty services argument runs all three fixtures; the command warns `Service "api" is unhealthy.` and exits with success |
| Scenarios.ExecuteOverFailure | src/Bridge/Symfony/Console/Command/HealthCheckCommand.php:55-85 | without an export mode, a failed result becomes the warning over its failed names, with exit code success |
| Scenarios.ConsoleCheckRunsAll | src/Bridge/Symfony/Console/Command/HealthCheckCommand.php:55-58 | the command's call runs all three checkers in simple mode |
| Scenarios.FailedNamesOfThree | src/Bridge/Symfony/Console/Command/HealthCheckCommand.php:65-75 | the only failed name of the three is `api` |

## Left out

- `PDOServiceChecker::check`, `RedisServiceChecker` and `DbalConnectionServiceChecker`: they are driver I/O against code that is not part of this model.
- The request and the response of the HTTP service checker and of the ping receiver are oracles (`Environment.fetchHeaders`, `Network.getHeaders`). Stream contexts are modelled only as the options the ping sends.
- `json_encode` is an oracle from values to an optional string, so pretty printing, JSON escaping and `JsonException` are not modelled. The console command's output is the value it would encode.
- `base64_decode` is an uninterpreted function; RFC 4648 is not modelled.
- `time()` is the parameter `now`, and one call uses one instant.
- The Nette cache is a map from keys to a value and an absolute expiry time. Its storage back-ends, relative expiry, locking and namespacing rules beyond the key pair are not modelled. Each way the cache can fail is a `CacheBehaviour` case.
- `mb_strlen` of the body is its length as a sequence of characters. Character encodings are not modelled.
- ServiceConnectionCheckers.Check: the source lets any exception other than `UnableToCreateConnectionException`, and any exception from `performHealthCheck`, propagate. The model's pool can only connect or fail to connect, so those paths are not modelled.
- HealthCheckers.Probe: checkers are deterministic functions of the environment, and a checker's `check` never throws. The PHP checkers modelled here catch what they throw, except the connection checker above.
- HttpServiceCheckers.Check: the detail is an abstract value (`down` for errors, an empty array for ok). With strict types, PHP would reject the string `'down'` as an array argument.
- Service checker groups (`getGroups`) are kept in the fixtures but read by nothing modelled.
- The other `ExportModeResolverInterface` implementations, such as the debug-mode resolver of the DI layer and the test's full-mode resolver, are not modelled.
- DI wiring: the Nette and Omni extensions, the extension configurator and the configuration schemas.
- The web entry points: the presenters, the Apitte controller and the route.
- The older API in `src/Bridge/Symfony/Console/HealthCheckCommand.php` and `src/HealthCheckerInterface.php`.
- Concurrent `check` calls sharing one cache are not modelled; each call is one sequential step.
