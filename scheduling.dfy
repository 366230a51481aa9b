/** `ScheduledExtractService`: the hosted service that starts the timer with
    the configured interval, re-times it when the configuration changes, and
    on every tick runs one extraction under the retry policy, recording the
    time of the last success.

    One tick's extraction is the composition of the retry loop with the
    extraction round: the operation the retry service runs on attempt k is
    `PerformExtract` against what the collaborators do on attempt k. */
module Scheduling {
  import opened Common
  import opened ExtractResults
  import opened ExtractContexts
  import opened Retry
  import opened Extraction
  import opened Timers
  import Text

  /** `ExtractTradesOptions`, with its defaults in `DefaultOptions`. */
  datatype ExtractTradesOptions = ExtractTradesOptions(
    folderPath: string,
    extractIntervalMinutes: Int32,
    maxRetryAttempts: Int32,
    retryDelaySeconds: Int32)

  const DefaultOptions: ExtractTradesOptions := ExtractTradesOptions("", 60, 3, 30)

  /** The largest number of minutes whose milliseconds fit an `int`. */
  const MaxIntervalMinutes: int := 35791

  predicate IntervalFits(options: ExtractTradesOptions) {
    -MaxIntervalMinutes <= options.extractIntervalMinutes <= MaxIntervalMinutes
  }

  /** `(int)TimeSpan.FromMinutes(minutes).TotalMilliseconds`, through the
      tick count the `TimeSpan` holds: exactly 60000 ms per minute. */
  function GetIntervalMilliseconds(options: ExtractTradesOptions): (ms: Int32)
    requires IntervalFits(options)
    ensures ms == options.extractIntervalMinutes * 60_000
    ensures ms >= Infinite <==> options.extractIntervalMinutes >= 0
  {
    var minutes := options.extractIntervalMinutes;
    var ticks := minutes * TicksPerMinute;
    assert ticks == (minutes * 60_000) * TicksPerMillisecond;
    ticks / TicksPerMillisecond
  }

  /** `CreateExtractContext()`: the retry parameters of the current options,
      a request for one day after `now`, and a fresh correlation id. */
  function CreateExtractContext(options: ExtractTradesOptions, now: DateTime, g: Guid): (c: ExtractContext)
    ensures c.requestedUtc == now + TicksPerDay
    ensures c.maxRetryAttempts == options.maxRetryAttempts
    ensures c.retryDelaySeconds == options.retryDelaySeconds
    ensures |c.correlationId| == 8 && Text.AllLowerHex(c.correlationId) && Text.HexValue(c.correlationId) == g.a
  {
    NewContext(Some(now + TicksPerDay), Some(options.maxRetryAttempts), Some(options.retryDelaySeconds), None, g)
  }

  // ------------------------------------------------------------ one tick's extraction

  /** What the collaborators do during one tick, attempt by attempt (from 1). */
  datatype World = World(
    forecast: nat -> ForecastSource,    // the forecast service on attempt k
    writeReport: nat -> ReportWriter,   // the export service on attempt k
    clock: nat -> DateTime,             // `DateTime.UtcNow` inside attempt k's result
    cancelledAtCheck: nat -> bool,      // the stopping token, before attempt k
    cancelledInDelay: nat -> bool)      // the stopping token, during the delay after attempt k

  /** Attempt k: one `PerformExtractAsync(context, token)` round. */
  function AttemptRun(context: ExtractContext, w: World, k: nat): ExtractRun {
    PerformExtract(context, w.forecast(k), w.writeReport(k), w.clock(k))
  }

  /** `() => _extractService.PerformExtractAsync(context, cancellationToken)`,
      handed to the retry service: it never throws, each attempt yields one
      round's single-attempt result, and the token is the stopping token. */
  function ExtractionScript(context: ExtractContext, w: World): (s: Script<ExtractResult>)
    ensures forall k: nat ::
      s.operation(k).Returned? && s.operation(k).value.attemptsMade == 1 &&
      s.operation(k).value.completedAt == w.clock(k)
    ensures s.cancelledAtCheck == w.cancelledAtCheck && s.cancelledInDelay == w.cancelledInDelay
  {
    Script((k: nat) => Returned(AttemptRun(context, w, k).result), w.cancelledAtCheck, w.cancelledInDelay)
  }

  /** `result => result.IsSuccess`: on a factory-made result it accepts
      exactly the successes. */
  function IsSuccess(r: ExtractResult): (accepted: bool)
    ensures Consistent(r) ==> (accepted <==> r == Success(r.attemptsMade, r.completedAt))
  {
    r.isSuccess
  }

  /** The round never throws, so the retry loop never records an exception. */
  lemma {:induction false} ExtractionScriptNeverThrows(context: ExtractContext, w: World, n: nat)
    ensures LastException(ExtractionScript(context, w), n) == None
    decreases n
  {
    if n > 0 {
      ExtractionScriptNeverThrows(context, w, n - 1);
    }
  }

  /** What a tick's retry run can end in: a result carrying no exception, a
      cancellation the stopping token caused, or the delay's refusal of its
      duration. */
  lemma PipelineOutcomes(context: ExtractContext, w: World, now: DateTime)
    ensures var run := RetrySpec(ExtractionScript(context, w), IsSuccess, context, now);
      (run.completion.Completed? ==> run.completion.result.exception == None) &&
      (run.completion.Raised? ==>
         1 <= run.attempts &&
         (run.completion.exception == OperationCanceled ==>
            w.cancelledAtCheck(run.attempts) || w.cancelledInDelay(run.attempts)) &&
         (run.completion.exception != OperationCanceled ==>
            run.completion.exception == ArgumentOutOfRange("delay") && DelayRejects(context.retryDelaySeconds)))
  {
    var s := ExtractionScript(context, w);
    if context.maxRetryAttempts > 0 {
      var k := FirstStopFrom(s, IsSuccess, context, 1);
      assert s.operation(k).Returned?;
      ExtractionScriptNeverThrows(context, w, k);
    }
  }

  /** The forecast is empty on every allowed attempt and nothing cancels:
      every attempt fails with "No forecast data available" without calling
      the export, and the tick ends in `Failure(Max, "Operation failed after
      {Max} attempts")` with no exception, after Max rounds. */
  lemma EmptyForecastEveryAttempt(context: ExtractContext, w: World, now: DateTime)
    requires context.maxRetryAttempts >= 1
    requires forall k :: 1 <= k <= context.maxRetryAttempts ==>
      w.forecast(k)(context.requestedUtc) == Returned([]) && !w.cancelledAtCheck(k)
    requires forall k :: 1 <= k < context.maxRetryAttempts ==> !w.cancelledInDelay(k)
    requires context.maxRetryAttempts > 1 ==> !DelayRejects(context.retryDelaySeconds)
    ensures var run := RetrySpec(ExtractionScript(context, w), IsSuccess, context, now);
      var max := context.maxRetryAttempts;
      run.completion == Completed(Failure(max, Some(FailureMessage(max)), now, None)) &&
      run.attempts == max && CountInvoked(run.trace) == max &&
      forall k :: 1 <= k <= max ==>
        AttemptRun(context, w, k).exported == None &&
        AttemptRun(context, w, k).result.errorMessage == Some(NoForecastMessage)
  {
    var s := ExtractionScript(context, w);
    forall k | 1 <= k <= context.maxRetryAttempts
      ensures Failed(s, IsSuccess, k)
      ensures AttemptRun(context, w, k).result.errorMessage == Some(NoForecastMessage)
    {
      PerformExtractOutcomes(context, w.forecast(k), w.writeReport(k), w.clock(k));
    }
    AllAttemptsFail(s, IsSuccess, context, now);
    ExtractionScriptNeverThrows(context, w, context.maxRetryAttempts);
  }

  /** The first round finds a forecast and the export succeeds: the tick
      ends in `Success(1)` after exactly one round and one export. */
  lemma FirstRoundExports(context: ExtractContext, w: World, now: DateTime)
    requires context.maxRetryAttempts >= 1 && !w.cancelledAtCheck(1)
    requires w.forecast(1)(context.requestedUtc).Returned? && w.forecast(1)(context.requestedUtc).value != []
    requires w.writeReport(1)(context.requestedUtc, w.forecast(1)(context.requestedUtc).value) == Returned(true)
    ensures var run := RetrySpec(ExtractionScript(context, w), IsSuccess, context, now);
      run.completion == Completed(Success(1, now)) && run.trace == [Invoked(1)] &&
      AttemptRun(context, w, 1).exported == Some((context.requestedUtc, w.forecast(1)(context.requestedUtc).value))
  {
    var s := ExtractionScript(context, w);
    FirstSuccessWins(s, IsSuccess, context, now, 1);
    FirstStopIs(s, IsSuccess, context, 1);
    assert TraceUpTo(s, IsSuccess, context, 1) == AttemptEvents(s, IsSuccess, context, 1);
  }

  /** Three attempts, 30 seconds apart, each meeting an empty forecast. */
  lemma EmptyForecastThreeAttempts(context: ExtractContext, w: World, retryNow: DateTime)
    requires context.maxRetryAttempts == 3 && context.retryDelaySeconds == 30
    requires forall k :: 1 <= k <= 3 ==>
      w.forecast(k)(context.requestedUtc) == Returned([]) && !w.cancelledAtCheck(k)
    requires !w.cancelledInDelay(1) && !w.cancelledInDelay(2)
    ensures RetrySpec(ExtractionScript(context, w), IsSuccess, context, retryNow).completion
      == Completed(Failure(3, Some("Operation failed after 3 attempts"), retryNow, None))
  {
    EmptyForecastEveryAttempt(context, w, retryNow);
    assert FailureMessage(3) == "Operation failed after 3 attempts" by {
      assert Text.IntToDecimal(3) == "3";
    }
  }

  /** With the default options (three attempts) and an empty forecast on
      every attempt, the tick reports "Operation failed after 3 attempts". */
  lemma DefaultsWithEmptyForecast(now: DateTime, g: Guid, w: World, retryNow: DateTime)
    requires forall k :: 1 <= k <= 3 ==>
      w.forecast(k)(now + TicksPerDay) == Returned([]) && !w.cancelledAtCheck(k)
    requires !w.cancelledInDelay(1) && !w.cancelledInDelay(2)
    ensures var context := CreateExtractContext(DefaultOptions, now, g);
      Classify(ReplyOf(RetrySpec(ExtractionScript(context, w), IsSuccess, context, retryNow).completion))
        == ExtractFailed(3, Some("Operation failed after 3 attempts"))
  {
    var context := CreateExtractContext(DefaultOptions, now, g);
    EmptyForecastThreeAttempts(context, w, retryNow);
  }

  // ------------------------------------------------------------ after the retry call

  /** What `ExecuteWithRetryAsync` handed back: a result (`null` possible
      through the interface) or an exception. */
  datatype RetryReply = Replied(result: Option<ExtractResult>) | ReplyThrew(exception: Exception)

  function ReplyOf(c: Completion): RetryReply {
    match c
    case Completed(r) => Replied(Some(r))
    case Raised(e) => ReplyThrew(e)
  }

  /** Which log entry a tick ends with. */
  datatype TickReport =
    | ExtractSucceeded(attempts: int)                              // information
    | ExtractFailed(attempts: int, errorMessage: Option<string>)   // critical
    | ExtractCancelled                                             // "was cancelled"
    | ExtractErrored(exception: Exception)                         // "Unexpected error"

  /** The handling in `ExecuteExtractAsync` after the retry call: a success
      or a critical failure, cancellation caught and logged, anything else
      (reading `IsSuccess` off a `null` result included) caught as unexpected. */
  function Classify(reply: RetryReply): (report: TickReport)
    ensures report.ExtractSucceeded? <==> reply.Replied? && reply.result.Some? && reply.result.value.isSuccess
    ensures report.ExtractSucceeded? ==> report.attempts == reply.result.value.attemptsMade
    ensures report.ExtractFailed? <==> reply.Replied? && reply.result.Some? && !reply.result.value.isSuccess
    ensures report.ExtractFailed? ==>
      report == ExtractFailed(reply.result.value.attemptsMade, reply.result.value.errorMessage)
    ensures report.ExtractCancelled? <==> reply.ReplyThrew? && reply.exception.IsCancellation()
    ensures reply == Replied(None) ==> report == ExtractErrored(NullReference)
    ensures reply.ReplyThrew? && !reply.exception.IsCancellation() ==> report == ExtractErrored(reply.exception)
  {
    match reply
    case Replied(None) => ExtractErrored(NullReference)
    case Replied(Some(r)) =>
      if r.isSuccess then ExtractSucceeded(r.attemptsMade) else ExtractFailed(r.attemptsMade, r.errorMessage)
    case ReplyThrew(e) => if e.IsCancellation() then ExtractCancelled else ExtractErrored(e)
  }

  /** The callback the service registers: `() => ExecuteExtractAsync(stoppingToken)`. */
  const ExtractCallback: Callback := Callback(0)

  class ScheduledExtractService {
    const timerService: TimerService
    var lastExtractTime: DateTime
    var subscribed: bool   // `OnConfigurationChanged` is registered with the options monitor

    constructor(timerService: TimerService)
      ensures this.timerService == timerService && lastExtractTime == MinValue && !subscribed
    {
      this.timerService := timerService;
      lastExtractTime := MinValue;
      subscribed := false;
    }

    /** `ExecuteAsync`, up to the indefinite wait: start the timer with the
      current interval and this service's callback, then subscribe to
      configuration changes. If `Start` throws, nothing is subscribed. */
    method ExecuteAsync(current: ExtractTradesOptions) returns (status: Outcome<()>)
      requires IntervalFits(current)
      modifies this`subscribed, timerService`callback, timerService`timer, timerService`calls
      ensures timerService.calls ==
        old(timerService.calls) + [StartCall(GetIntervalMilliseconds(current), Some(ExtractCallback))]
      ensures timerService.disposed == old(timerService.disposed) && timerService.busy == old(timerService.busy)
      ensures old(timerService.disposed) ==>
        status == Threw(ObjectDisposed("TimerService")) &&
        timerService.callback == old(timerService.callback) && timerService.timer == old(timerService.timer)
      ensures !old(timerService.disposed) ==> timerService.callback == Some(ExtractCallback)
      ensures !old(timerService.disposed) && current.extractIntervalMinutes >= 0 ==>
        var ms := GetIntervalMilliseconds(current);
        status == Returned(()) && timerService.timer == Some(Timer(ms, ms, false)) &&
        timerService.CurrentPhase() == Phase.Scheduled
      ensures !old(timerService.disposed) && current.extractIntervalMinutes < 0 ==>
        status == Threw(ArgumentOutOfRange("dueTime")) &&
        timerService.timer ==
          if old(timerService.timer).Some? then Some(old(timerService.timer).value.(disposed := true)) else None
      ensures subscribed == (old(subscribed) || status.Returned?)
      ensures lastExtractTime == old(lastExtractTime)
    {
      var intervalMs := GetIntervalMilliseconds(current);
      status := timerService.Start(intervalMs, Some(ExtractCallback));
      if status.Returned? {
        subscribed := true;
      }
    }

    /** `OnConfigurationChanged(newOptions)`: `newOptions` is only logged;
      the interval comes from the monitor's current value, and only the
      timer's cadence changes. A disposed or never-started timer is left
      alone; a negative interval makes `Change` throw and keeps the timer. */
    method OnConfigurationChanged(current: ExtractTradesOptions, newOptions: ExtractTradesOptions)
      returns (status: Outcome<()>)
      requires IntervalFits(current)
      modifies timerService`timer, timerService`calls
      ensures timerService.calls ==
        old(timerService.calls) + [UpdateIntervalCall(GetIntervalMilliseconds(current))]
      ensures timerService.disposed == old(timerService.disposed) &&
              timerService.callback == old(timerService.callback) && timerService.busy == old(timerService.busy)
      ensures old(timerService.disposed) || old(timerService.timer).None? ==>
        status == Returned(()) && timerService.timer == old(timerService.timer)
      ensures !old(timerService.disposed) && old(timerService.timer).Some? ==>
        var ms := GetIntervalMilliseconds(current);
        status == StatusOf(ChangeTimer(old(timerService.timer).value, ms, ms)) &&
        timerService.timer == Some(AfterChange(old(timerService.timer).value, ms))
      ensures !old(timerService.disposed) && old(timerService.timer).Some? && current.extractIntervalMinutes < 0 ==>
        status == Threw(ArgumentOutOfRange("dueTime")) && timerService.timer == old(timerService.timer)
      ensures !old(timerService.disposed) && old(timerService.timer).Some? && !old(timerService.timer).value.disposed &&
              current.extractIntervalMinutes >= 0 ==>
        var ms := GetIntervalMilliseconds(current);
        status == Returned(()) && timerService.timer == Some(Timer(ms, ms, false)) &&
        timerService.CurrentPhase() == Phase.Scheduled
      ensures subscribed == old(subscribed) && lastExtractTime == old(lastExtractTime)
    {
      status := timerService.UpdateInterval(GetIntervalMilliseconds(current));
    }

    /** The options monitor's dispatch of a change: the handler runs exactly
      when it was registered, and the source never unregisters it. */
    method NotifyOptionsChanged(current: ExtractTradesOptions, newOptions: ExtractTradesOptions)
      returns (status: Outcome<()>)
      requires IntervalFits(current)
      modifies timerService`timer, timerService`calls
      ensures !subscribed ==>
        status == Returned(()) && timerService.calls == old(timerService.calls) &&
        timerService.timer == old(timerService.timer)
      ensures subscribed ==>
        var ms := GetIntervalMilliseconds(current);
        timerService.calls == old(timerService.calls) + [UpdateIntervalCall(ms)] &&
        timerService.timer ==
          if !timerService.disposed && old(timerService.timer).Some?
          then Some(AfterChange(old(timerService.timer).value, ms)) else old(timerService.timer)
      ensures timerService.disposed == old(timerService.disposed) &&
              timerService.callback == old(timerService.callback) && timerService.busy == old(timerService.busy)
    {
      status := Returned(());
      if subscribed {
        status := OnConfigurationChanged(current, newOptions);
      }
    }

    /** The tail of `ExecuteExtractAsync`: log by `Classify`, and stamp
      `_lastExtractTime` with `completedAt` exactly on success. */
    method HandleReply(reply: RetryReply, completedAt: DateTime) returns (report: TickReport)
      modifies this`lastExtractTime
      ensures report == Classify(reply)
      ensures lastExtractTime == if report.ExtractSucceeded? then completedAt else old(lastExtractTime)
    {
      report := Classify(reply);
      if report.ExtractSucceeded? {
        lastExtractTime := completedAt;
      }
    }

    /** `ExecuteExtractAsync`: one retry run for a fresh context, judged by
      `IsSuccess`. It throws nothing; with the real collaborators it never
      meets a `null` result, and an unexpected error can only be the delay
      refusing its duration. */
    method ExecuteExtract(current: ExtractTradesOptions, now: DateTime, g: Guid, w: World,
                          retryNow: DateTime, completedAt: DateTime)
      returns (report: TickReport, context: ExtractContext)
      modifies this`lastExtractTime
      ensures context == CreateExtractContext(current, now, g)
      ensures report ==
        Classify(ReplyOf(RetrySpec(ExtractionScript(context, w), IsSuccess, context, retryNow).completion))
      ensures report.ExtractErrored? ==>
        report.exception == ArgumentOutOfRange("delay") && DelayRejects(current.retryDelaySeconds)
      ensures lastExtractTime == if report.ExtractSucceeded? then completedAt else old(lastExtractTime)
    {
      context := CreateExtractContext(current, now, g);
      var run := ExecuteWithRetry(ExtractionScript(context, w), IsSuccess, context, retryNow);
      PipelineOutcomes(context, w, retryNow);
      report := HandleReply(ReplyOf(run.completion), completedAt);
    }

    /** One timer tick with this service's callback registered: the
      extraction runs exactly when the timer service is live and not busy;
      nothing escapes the tick, the guard is as free afterwards as before,
      and nothing else of the timer service or the subscription changes. */
    method OnTick(current: ExtractTradesOptions, now: DateTime, g: Guid, w: World,
                  retryNow: DateTime, completedAt: DateTime)
      returns (report: Option<TickReport>, escaped: Option<Exception>)
      requires timerService.callback == None || timerService.callback == Some(ExtractCallback)
      modifies this`lastExtractTime, timerService`busy
      ensures report.Some? <==>
        !timerService.disposed && timerService.callback == Some(ExtractCallback) && !old(timerService.busy)
      ensures report.Some? ==>
        var context := CreateExtractContext(current, now, g);
        report.value ==
          Classify(ReplyOf(RetrySpec(ExtractionScript(context, w), IsSuccess, context, retryNow).completion))
      ensures lastExtractTime ==
        if report.Some? && report.value.ExtractSucceeded? then completedAt else old(lastExtractTime)
      ensures escaped == None
      ensures timerService.busy == old(timerService.busy)
      ensures timerService.disposed == old(timerService.disposed) && timerService.callback == old(timerService.callback) &&
              timerService.timer == old(timerService.timer) && timerService.calls == old(timerService.calls)
      ensures subscribed == old(subscribed)
    {
      report, escaped := None, None;
      var start := timerService.BeginTick();
      if start.Running? {
        assert timerService.busy && !timerService.disposed && !old(timerService.busy);
        assert timerService.callback == Some(ExtractCallback);
        var r, _ := ExecuteExtract(current, now, g, w, retryNow, completedAt);
        assert timerService.busy && !timerService.disposed;
        var logged;
        logged, escaped := timerService.EndTick(Finished);
        report := Some(r);
      }
    }

    /** `StopAsync`: suspend the timer (the base class then cancels the
      stopping token). The subscription to configuration changes stays. */
    method StopAsync() returns (status: Outcome<()>)
      modifies timerService`timer, timerService`calls
      ensures timerService.calls == old(timerService.calls) + [StopCall]
      ensures timerService.disposed == old(timerService.disposed) &&
              timerService.callback == old(timerService.callback) && timerService.busy == old(timerService.busy)
      ensures old(timerService.disposed) || old(timerService.timer).None? ==>
        status == Returned(()) && timerService.timer == old(timerService.timer)
      ensures !old(timerService.disposed) && old(timerService.timer).Some? ==>
        status == StatusOf(ChangeTimer(old(timerService.timer).value, Infinite, Infinite)) &&
        timerService.timer == Some(AfterChange(old(timerService.timer).value, Infinite))
      ensures !old(timerService.disposed) && old(timerService.timer).Some? && !old(timerService.timer).value.disposed ==>
        status == Returned(()) && timerService.timer == Some(Timer(Infinite, Infinite, false))
      ensures timerService.CurrentPhase() == if timerService.disposed then Phase.Disposed else Phase.Idle
      ensures subscribed == old(subscribed)
    {
      status := timerService.Stop();
    }

    /** `Dispose`: dispose the timer service. */
    method Dispose()
      modifies timerService`disposed, timerService`timer, timerService`calls
      ensures timerService.calls == old(timerService.calls) + [DisposeCall]
      ensures timerService.disposed && timerService.CurrentPhase() == Phase.Disposed
      ensures timerService.callback == old(timerService.callback) && timerService.busy == old(timerService.busy)
      ensures old(timerService.disposed) ==> timerService.timer == old(timerService.timer)
      ensures !old(timerService.disposed) ==>
        timerService.timer ==
          if old(timerService.timer).Some? then Some(old(timerService.timer).value.(disposed := true)) else None
    {
      timerService.Dispose();
    }
  }

  /** The subscription outlives `StopAsync`: a configuration change after
      the service stopped restarts the suspended timer. */
  method ConfigurationChangeAfterStop() returns (phase: Phase)
    ensures phase == Phase.Scheduled
  {
    var timers := new TimerService();
    var service := new ScheduledExtractService(timers);
    var started := service.ExecuteAsync(DefaultOptions);
    var stopped := service.StopAsync();
    var changed := service.NotifyOptionsChanged(DefaultOptions, DefaultOptions);
    phase := timers.CurrentPhase();
  }
}
