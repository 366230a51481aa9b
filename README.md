# PowerTrade extraction scheduling, modelled in Dafny

PowerTrade periodically requests the next day's power forecast from an external
trading service, adds up the trades period by period into hourly rows, and
writes a report. The control core does four things:

- A timer service fires a callback. Its one-slot guard keeps two runs from
  overlapping.
- A hosted service (`ScheduledExtractService`) starts that timer and re-times
  it when the configuration changes. Each tick runs one extraction under a
  retry policy.
- The retry policy (`RetryService`) runs an operation up to
  `MaxRetryAttempts` times, `RetryDelaySeconds` apart. It stops at the first
  accepted result, re-throws cancellation, and otherwise returns a failure that
  carries the last exception.
- An extraction round (`ExtractService`) fetches the forecast and exports it.
  Every outcome, thrown exceptions included, comes back as an `ExtractResult`.

The project models these pieces, together with the immutable `ExtractResult` /
`ExtractContext` values and the hourly aggregation of `ForcastCallingService`:

| file | module | models |
|---|---|---|
| `common.dfy` | `Common` | `int`, `DateTime` as ticks, the exceptions the core raises or catches, `Outcome` (returned or threw) |
| `text.dfy` | `Text` | decimal rendering of an `int` and fixed-width lower-case hexadecimal, with their round trips |
| `extract_result.dfy` | `ExtractResults` | `ExtractResult` and its `Success`/`Failure` factories |
| `extract_context.dfy` | `ExtractContexts` | `ExtractContext`, its defaults, and the correlation id taken from a `Guid` |
| `retry.dfy` | `Retry` | `ExecuteWithRetryAsync` as a loop, proved equal to a closed-form specification `RetrySpec` |
| `extraction.dfy` | `Extraction` | `PerformExtractAsync` as a function of what its two collaborators do |
| `forecast.dfy` | `Forecast` | `GetForcastAsync` (Infrastructure) as a loop over the provider's trades |
| `timer.dfy` | `Timers` | `TimerService` as a class: `Start`, `Stop`, `UpdateInterval`, `Dispose`, and the tick split into its two halves |
| `scheduling.dfy` | `Scheduling` | the options, interval and context functions, the composition of retry with the extraction round, and `ScheduledExtractService` as a class over a `TimerService` |

Some inputs come from outside the program, and the model represents each one
explicitly:

- **Clock readings.** Every `DateTime.UtcNow` the core takes is a parameter
  (`now`, `retryNow`, `completedAt`, `World.clock`).
- **Randomness.** The `Guid` behind a correlation id is a parameter.
- **External services.** The power service, the forecast service and the
  report writer are functions that say what each call returns or throws.
- **The cancellation token** is a pair of functions. One gives its state at the
  check before attempt k. The other gives its state during the delay after
  attempt k.
- **Timer firing.** When the runtime fires the timer is not modelled; a tick is
  a method call.

### Behaviour at the boundaries

- **Cancellation inside an extraction round.**
  `PowerTrade/src/Pwr.Application/Services/ExtractService.cs:50-56` has a
  single `catch (Exception)`, which also catches `OperationCanceledException`.
  So a cancelled fetch or export becomes `Failure(1, "Extract operation failed",
  ex)`, and `Extraction.PerformExtract` never throws. The round also never reads
  its token. As a result, in a tick only the retry loop's own check and its delay
  can raise cancellation: `Scheduling.PipelineOutcomes` proves this.
- **The retry delay can throw something other than cancellation.**
  `Task.Delay` refuses a duration below -1 ms or above `0xFFFFFFFE` ms, so a
  negative or huge `RetryDelaySeconds` is refused.
  - If the refusal happens after an operation threw, it propagates from
    `RetryService.cs:67`.
  - If it happens after a rejected result, it is raised at line 48. There it is
    caught by `catch (Exception)`, which calls the delay a second time (line 67);
    that second call throws the same refusal, which escapes.

  Either way the hosted service logs an unexpected error. `Retry.AttemptEvents`
  records the second delay call, and `Scheduling.ScheduledExtractService.ExecuteExtract`
  states that this refusal is the only unexpected error a tick can meet.
- **Configuration changes after `StopAsync`.** `ExecuteAsync` subscribes
  `OnConfigurationChanged` (`ScheduledExtractService.cs:49`) and nothing
  unsubscribes it; `StopAsync` (lines 118-125) only suspends the timer. A
  configuration change between `StopAsync` and `Dispose` therefore re-arms the
  timer, and its ticks run again. With `MaxRetryAttempts` at least 1, each of
  them meets the cancelled stopping token at the retry loop's first check and
  logs a cancellation; with 0 or less the loop body never runs
  (`RetryService.cs:20`), no token is checked, and each tick logs a critical
  `Failure(0, …)`. `Scheduling.ConfigurationChangeAfterStop`
  shows the timer scheduled again.

## Model

| member | source | states |
|---|---|---|
| ExtractResults.Success | PowerTrade/src/Pwr.Application/Models/ExtractResult.cs:14-19 | a success with the given attempt count and clock reading, no message, no exception |
| ExtractResults.Failure | PowerTrade/src/Pwr.Application/Models/ExtractResult.cs:21-28 | a failure keeping count, message (null or empty included) and exception as given, exception defaulting to none |
| ExtractResults.ConsistentIsFactoryMade | PowerTrade/src/Pwr.Application/Models/ExtractResult.cs:6-29 | a result with no error on success is exactly the product of one of the two factories |
| Text.IntToDecimal | PowerTrade/src/Pwr.Application/Services/RetryService.cs:72 | an int's rendering starts with '-' exactly for negatives and is otherwise digits, with no leading zero except "0" itself |
| Text.IntDecimalRoundTrip | PowerTrade/src/Pwr.Application/Services/RetryService.cs:72 | ParseDecimal reads back every int's rendering |
| Text.IntToDecimalInjective | PowerTrade/src/Pwr.Application/Services/RetryService.cs:72 | distinct ints render differently |
| Text.HexRoundTrip | PowerTrade/src/Pwr.Application/Models/ExtractContext.cs:11 | the fixed-width hexadecimal of a Guid field gives back that field |
| ExtractContexts.GuidToStringN | PowerTrade/src/Pwr.Application/Models/ExtractContext.cs:11 | the "N" format is 32 lower-case hex digits beginning with the first field |
| ExtractContexts.NewCorrelationId | PowerTrade/src/Pwr.Application/Models/ExtractContext.cs:11 | the default correlation id is 8 lower-case hex characters from which the Guid's first field is recovered |
| ExtractContexts.NewContext | PowerTrade/src/Pwr.Application/Models/ExtractContext.cs:6-12 | every supplied property is stored as given (any `int`, any id); omitted ones take their defaults |
| ExtractContexts.DefaultContextShape | PowerTrade/src/Pwr.Application/Models/ExtractContext.cs:8-11 | a default context has zero retry fields, the minimum date and an 8-hex-digit id |
| ExtractContexts.DistinctGuidsGiveDistinctIds | PowerTrade/src/Pwr.Application/Models/ExtractContext.cs:11 | Guids differing in their first field give contexts with different ids |
| Extraction.PerformExtract | PowerTrade/src/Pwr.Application/Services/ExtractService.cs:18-57 | attempts 1, stamped now; export is called iff the forecast is non-empty, with the requested time and the list unchanged; success iff the export returned true; an exception is recorded iff a collaborator threw |
| Extraction.PerformExtractOutcomes | PowerTrade/src/Pwr.Application/Services/ExtractService.cs:24-56 | the four outcomes with their exact messages; a thrown exception, cancellation included, becomes "Extract operation failed" |
| Forecast.MinPeriods | PowerTrade/src/Pwr.Infrastructure/Services/ForcastCallingService.cs:23 | the minimum is at most every trade's period count and equals one of them |
| Forecast.TotalVolume | PowerTrade/src/Pwr.Infrastructure/Services/ForcastCallingService.cs:28 | a period's total is 0 without trades and, with no negative volume, non-negative and at least each trade's volume |
| Forecast.TotalVolumeSplits | PowerTrade/src/Pwr.Infrastructure/Services/ForcastCallingService.cs:28 | a period's total over a concatenation of trade lists is the sum of the totals |
| Forecast.TruncateToHour | PowerTrade/src/Pwr.Infrastructure/Services/ForcastCallingService.cs:30 | the result is hour-aligned and the latest such instant not after the input |
| Forecast.RowTime | PowerTrade/src/Pwr.Infrastructure/Services/ForcastCallingService.cs:29-31 | row i's time is hour-aligned, later than i hours after the request and at most i+1 hours after it |
| Forecast.GetTradesFromExternalService | PowerTrade/src/Pwr.Infrastructure/Services/ForcastCallingService.cs:40-61 | the provider's trades, or none when the provider throws |
| Forecast.GetForcast | PowerTrade/src/Pwr.Infrastructure/Services/ForcastCallingService.cs:11-38 | no rows without trades; otherwise min-period-count rows, row i is the requested hour plus i+1 hours with the sum of period i; rows hour-aligned, after the request, one hour apart |
| Retry.RetryWithDelay | PowerTrade/src/Pwr.Application/Services/RetryService.cs:80-84 | the delay throws iff its duration is refused or the token is cancelled, the refusal taking precedence |
| Retry.FailureMessage | PowerTrade/src/Pwr.Application/Services/RetryService.cs:72 | the message is "Operation failed after ", then a decimal numeral (optional '-' and digits, no leading zero except "0" itself) that reads back as the attempt limit, then " attempts" |
| Retry.FailureMessageInjective | PowerTrade/src/Pwr.Application/Services/RetryService.cs:72 | different attempt limits give different failure messages |
| Retry.ExecuteWithRetry | PowerTrade/src/Pwr.Application/Services/RetryService.cs:11-78 | the loop's result, attempt count and call trace equal the closed-form specification `RetrySpec` |
| Retry.NoAttemptAllowed | PowerTrade/src/Pwr.Application/Services/RetryService.cs:17-77 | with no attempt allowed the operation is never called and the result is Failure(0, message, null) |
| Retry.RunShape | PowerTrade/src/Pwr.Application/Services/RetryService.cs:20-68 | between 1 and Max attempts, the operation called at most once per attempt and in order, delays only after a non-final attempt |
| Retry.FirstSuccessWins | PowerTrade/src/Pwr.Application/Services/RetryService.cs:31-40 | the first accepted attempt k gives Success(k), and nothing happens for a later attempt |
| Retry.AllAttemptsFail | PowerTrade/src/Pwr.Application/Services/RetryService.cs:42-77 | all attempts failing gives Failure(Max, message, last exception) after exactly Max calls and Max-1 delays |
| Retry.LastExceptionIsMostRecent | PowerTrade/src/Pwr.Application/Services/RetryService.cs:58-77 | the recorded exception is that of the latest attempt that threw, and none iff no attempt threw |
| Retry.CancellationPropagates | PowerTrade/src/Pwr.Application/Services/RetryService.cs:23-57 | a cancellation at the check, in the operation or in the delay ends the run by being re-thrown, at that attempt |
| Retry.CompletedRunSawNoCancellation | PowerTrade/src/Pwr.Application/Services/RetryService.cs:51-57 | a run that returns a result met no cancellation in any attempt it made |
| Timers.NewTimer | PowerTrade/src/Pwr.Application/Services/TimerService.cs:25 | the timer is created iff due time and period are at least Timeout.Infinite |
| Timers.ChangeTimer | PowerTrade/src/Pwr.Application/Services/TimerService.cs:34-42 | a change succeeds iff both values are at least Timeout.Infinite and the timer is not disposed |
| Timers.TimerService.CurrentPhase | PowerTrade/src/Pwr.Application/Services/TimerService.cs:14-16 | the phase is Disposed exactly when the service is disposed |
| Timers.TimerService.constructor | PowerTrade/src/Pwr.Application/Services/TimerService.cs:10-16 | a new service is live, idle, without callback or timer, guard free |
| Timers.TimerService.Start | PowerTrade/src/Pwr.Application/Services/TimerService.cs:18-28 | after disposal it throws and changes nothing; otherwise the new callback replaces the old, the old timer is disposed and replaced by a new one with due time and period intervalMs, or the constructor throws for an interval below -1; disposal and guard unchanged |
| Timers.TimerService.Stop | PowerTrade/src/Pwr.Application/Services/TimerService.cs:30-36 | a no-op when disposed or never started; otherwise the timer is suspended; idle afterwards unless disposed; disposal, callback and guard unchanged |
| Timers.TimerService.UpdateInterval | PowerTrade/src/Pwr.Application/Services/TimerService.cs:38-44 | a no-op when disposed or never started; otherwise only the timer's cadence changes, the callback stays; disposal and guard unchanged |
| Timers.TimerService.Dispose | PowerTrade/src/Pwr.Application/Services/TimerService.cs:70-78 | disposed afterwards; the first call disposes the timer, later calls change nothing; callback and guard unchanged |
| Timers.TimerService.BeginTick | PowerTrade/src/Pwr.Application/Services/TimerService.cs:46-54 | nothing when disposed or without callback, a skip while busy, otherwise the guard is taken and the current callback runs |
| Timers.TimerService.EndTick | PowerTrade/src/Pwr.Application/Services/TimerService.cs:56-67 | the callback's fault is logged, not thrown; the release frees the guard, or throws if the service was disposed meanwhile |
| Timers.TimerService.EndTickChecked | PowerTrade/src/Pwr.Application/Services/TimerService.cs:56-67 | the same with the release guarded: nothing ever escapes |
| Timers.TimerService.Tick | PowerTrade/src/Pwr.Application/Services/TimerService.cs:46-68 | the callback runs iff live, set and not busy; its fault is logged; with no Dispose in between, the as-written release throws nothing and the guard is as free afterwards as before |
| Timers.RestartRunsNewestCallback | PowerTrade/src/Pwr.Application/Services/TimerService.cs:23-25 | after a second Start the tick runs the second callback |
| Timers.NothingRunsAfterDispose | PowerTrade/src/Pwr.Application/Services/TimerService.cs:18-48 | after Dispose a tick runs nothing and Start throws ObjectDisposedException |
| Timers.DisposeDuringCallback | PowerTrade/src/Pwr.Application/Services/TimerService.cs:64-76 | a Dispose during a running callback makes the tick throw ObjectDisposedException |
| Timers.DisposeDuringCallbackChecked | PowerTrade/src/Pwr.Application/Services/TimerService.cs:64-76 | with the guarded release the same interleaving throws nothing |
| Scheduling.GetIntervalMilliseconds | PowerTrade/src/Pwr.Application/Services/ScheduledExtractService.cs:115-116 | minutes times 60000, which is a valid timer interval iff the minutes are not negative |
| Scheduling.CreateExtractContext | PowerTrade/src/Pwr.Application/Services/ScheduledExtractService.cs:104-113 | retry fields copied from the options unchanged, request one day after now, a fresh 8-hex-digit id |
| Scheduling.ExtractionScript | PowerTrade/src/Pwr.Application/Services/ScheduledExtractService.cs:75 | the operation handed to the retry service never throws, yields a one-attempt result stamped by that attempt's clock, and sees the stopping token |
| Scheduling.IsSuccess | PowerTrade/src/Pwr.Application/Services/ScheduledExtractService.cs:76 | on a factory-made result the condition holds exactly for a success |
| Scheduling.ExtractionScriptNeverThrows | PowerTrade/src/Pwr.Application/Services/ScheduledExtractService.cs:74-78 | the composed operation never throws, so the retry loop records no exception |
| Scheduling.PipelineOutcomes | PowerTrade/src/Pwr.Application/Services/ScheduledExtractService.cs:74-78 | a tick's retry run returns a result without exception, or raises a cancellation the token caused, or the delay refusal |
| Scheduling.EmptyForecastEveryAttempt | PowerTrade/src/Pwr.Application/Services/ScheduledExtractService.cs:73-92 | an empty forecast on every attempt gives Failure(Max, "Operation failed after {Max} attempts", null) after Max rounds, none calling the export |
| Scheduling.FirstRoundExports | PowerTrade/src/Pwr.Application/Services/ScheduledExtractService.cs:73-86 | a first round with a forecast and a successful export gives Success(1) after one call and one export |
| Scheduling.EmptyForecastThreeAttempts | PowerTrade/src/Pwr.Application/Services/RetryService.cs:20-77 | three attempts all meeting an empty forecast give "Operation failed after 3 attempts" |
| Scheduling.DefaultsWithEmptyForecast | PowerTrade/src/Pwr.Application/Options/ExtractTradesOptions.cs:7-10 | with the default options an empty forecast makes the tick report a critical failure after 3 attempts |
| Scheduling.Classify | PowerTrade/src/Pwr.Application/Services/ScheduledExtractService.cs:80-101 | success, critical failure, graceful cancellation or unexpected error, each iff its condition; a null result is a NullReferenceException |
| Scheduling.ScheduledExtractService.constructor | PowerTrade/src/Pwr.Application/Services/ScheduledExtractService.cs:18-30 | the last extract time starts at the minimum date |
| Scheduling.ScheduledExtractService.ExecuteAsync | PowerTrade/src/Pwr.Application/Services/ScheduledExtractService.cs:37-49 | one Start with the current interval and this service's callback: after disposal it throws and changes nothing; otherwise the callback is set, and a new timer has due time and period equal to the interval (still live, guard untouched) or, for a negative interval, the constructor throws and the old timer is left disposed; subscribes iff Start returned |
| Scheduling.ScheduledExtractService.OnConfigurationChanged | PowerTrade/src/Pwr.Application/Services/ScheduledExtractService.cs:61-67 | one UpdateInterval with the interval of the monitor's current value, not of the argument: a no-op when disposed or never started; a negative interval throws and keeps the timer; otherwise the live timer is rescheduled to the new interval; callback, guard and disposal unchanged |
| Scheduling.ScheduledExtractService.HandleReply | PowerTrade/src/Pwr.Application/Services/ScheduledExtractService.cs:80-101 | the report is the classification; the last extract time changes exactly on success |
| Scheduling.ScheduledExtractService.ExecuteExtract | PowerTrade/src/Pwr.Application/Services/ScheduledExtractService.cs:69-102 | a fresh context; the report is the classified retry run over the composed operation; only the delay refusal is unexpected; last extract time changes only on success |
| Scheduling.ScheduledExtractService.OnTick | PowerTrade/src/Pwr.Application/Services/ScheduledExtractService.cs:43 | an extraction runs iff the timer service is live, holds this callback and is not busy; its report is the classified retry run; nothing escapes, the guard is restored, and the timer, callback, call log and subscription are unchanged |
| Scheduling.ScheduledExtractService.StopAsync | PowerTrade/src/Pwr.Application/Services/ScheduledExtractService.cs:118-125 | one Stop: a no-op when disposed or never started, otherwise a live timer is suspended; idle afterwards unless disposed; disposal, callback, guard and subscription unchanged |
| Scheduling.ScheduledExtractService.NotifyOptionsChanged | PowerTrade/src/Pwr.Application/Services/ScheduledExtractService.cs:49 | a configuration change runs OnConfigurationChanged exactly when it was subscribed, and otherwise changes nothing |
| Scheduling.ConfigurationChangeAfterStop | PowerTrade/src/Pwr.Application/Services/ScheduledExtractService.cs:49-125 | ExecuteAsync, StopAsync, then a configuration change leaves the timer scheduled again |
| Scheduling.ScheduledExtractService.Dispose | PowerTrade/src/Pwr.Application/Services/ScheduledExtractService.cs:127-131 | one Dispose of the timer service: disposed afterwards, the first call disposes the timer, callback and guard unchanged |

## Left out

- Real time and threads are not modelled: the timer's firing, `async void` dispatch, and how far the clock advances. A tick is an explicit call, and an interleaving is written as calls to `BeginTick`, other methods, then `EndTick`.
- Timers.TimerService.BeginTick: the 100 ms `WaitAsync` timeout is treated as an immediate skip. If a running callback finishes within those 100 ms, the source would run the new tick; the model skips it.
- Delay durations and the indefinite `Task.Delay` in `ExecuteAsync` are not modelled. The stopping token, which `base.StopAsync` cancels, appears only through `World`'s cancellation flags.
- Logging and dependency-injection registration are left out; they change no state of the core.
- CSV export is an abstract report writer returning a boolean or throwing. The power service and the forecast service are abstract as well.
- `Guid.NewGuid` randomness is not modelled: the Guid is a parameter.
- Volumes are integers, not `double`, so rounding in the sums is not modelled.
- `DateTime` is a tick count without the year-9999 limit, so the `ArgumentOutOfRangeException` that `AddDays` or `AddHours` would throw at that limit is not modelled. `DateTimeKind` and time zones are not modelled either.
- Scheduling.GetIntervalMilliseconds: requires at most 35791 minutes in magnitude. Beyond that, the `(int)` cast of the `double` overflows, and the result depends on the runtime version.
- Retry.ExecuteWithRetry: the success condition is total. The source calls it inside the `try`, so a throwing predicate would be recorded as the attempt's exception; the model does not cover that case.
- Forecast.GetTradesFromExternalService: a `null` reply from the provider and lazily failing enumerations are not modelled.
- Text.IntToDecimal: the negative sign is always '-'. The source uses the current culture's negative sign.
- Timers.TimerService.CurrentPhase: Scheduled does not separate a periodic timer from a period-0 one-shot (`Start(0, cb)`, or `ExtractIntervalMinutes = 0`, which fires once and then never again) or from a due time of -1 that never fires.
- Timers.ChangeTimer: on a disposed timer it throws `ObjectDisposedException`, as current .NET does. That case arises only after a `Start` whose timer constructor threw.
- Scheduling.ScheduledExtractService.ExecuteExtract: its contract does not count retry calls. The body makes exactly one.
- `TimerService.calls` is a ghost log of the public calls. The count and order of timer calls are stated through it.
- The rest of the repository is not part of this model:
  - the three `ExportService` copies;
  - `DateTimeExtensions` and `OutputItemDto` formatting;
  - the stale `ForcastCallingService` in `Pwr.Application`;
  - the `Pwr.App` console demo;
  - the benchmarks.

## Findings

| source | as written | input that shows it | evidently intended | confidence | as-written member | corrected member |
|---|---|---|---|---|---|---|
| PowerTrade/src/Pwr.Application/Services/TimerService.cs:64-76 | `finally` calls `_semaphore.Release()` without checking `_disposed`, while `Dispose` disposes the semaphore | `Start(100, cb)`; a tick takes the guard and awaits `cb`; `Dispose()`; `cb` completes, `Release` throws `ObjectDisposedException` out of the `async void` handler | a tick never throws, as the guard at line 48 and the `catch` at line 60 intend | medium, not executed | Timers.DisposeDuringCallback | Timers.DisposeDuringCallbackChecked |
