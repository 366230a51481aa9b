/** `ExtractService.PerformExtractAsync`: one fetch-then-export round whose
    every outcome, thrown exceptions included, is an `ExtractResult`. */
module Extraction {
  import opened Common
  import opened ExtractResults
  import opened ExtractContexts
  import opened Forecast

  /** `IForcastCallingService.GetForcastAsync(requestedUtc)`, as the round sees it. */
  type ForecastSource = DateTime -> Outcome<seq<InputItem>>

  /** `IExportService.GenerateReport(requestedUtc, rows)`, as the round sees it. */
  type ReportWriter = (DateTime, seq<InputItem>) -> Outcome<bool>

  const NoForecastMessage: string := "No forecast data available"
  const ReportFailedMessage: string := "Failed to generate report"
  const ExtractFailedMessage: string := "Extract operation failed"

  /** The result, and the arguments of the export call if one was made. */
  datatype ExtractRun = ExtractRun(result: ExtractResult, exported: Option<(DateTime, seq<InputItem>)>)

  /** One round for `context`. `now` is the clock reading the result takes. */
  function PerformExtract(context: ExtractContext, forecast: ForecastSource, writeReport: ReportWriter,
                          now: DateTime): (run: ExtractRun)
    ensures run.result.attemptsMade == 1 && run.result.completedAt == now && Consistent(run.result)
    ensures run.exported.Some? <==>
      forecast(context.requestedUtc).Returned? && forecast(context.requestedUtc).value != []
    ensures run.exported.Some? ==>
      run.exported.value == (context.requestedUtc, forecast(context.requestedUtc).value)
    ensures run.result.isSuccess <==>
      run.exported.Some? && writeReport(context.requestedUtc, forecast(context.requestedUtc).value) == Returned(true)
    ensures run.result.exception.Some? <==>
      forecast(context.requestedUtc).Threw? ||
      (run.exported.Some? && writeReport(context.requestedUtc, forecast(context.requestedUtc).value).Threw?)
  {
    match forecast(context.requestedUtc)
    case Threw(e) =>
      ExtractRun(Failure(1, Some(ExtractFailedMessage), now, Some(e)), None)
    case Returned(forecastList) =>
      if |forecastList| == 0 then
        ExtractRun(Failure(1, Some(NoForecastMessage), now), None)
      else
        var call := (context.requestedUtc, forecastList);
        match writeReport(context.requestedUtc, forecastList)
        case Threw(e) => ExtractRun(Failure(1, Some(ExtractFailedMessage), now, Some(e)), Some(call))
        case Returned(reportGenerated) =>
          if reportGenerated then ExtractRun(Success(1, now), Some(call))
          else ExtractRun(Failure(1, Some(ReportFailedMessage), now), Some(call))
  }

  /** The four outcomes, message by message. A thrown exception of either
      collaborator, a cancellation included, becomes "Extract operation
      failed" carrying that exception: the round never throws. */
  lemma PerformExtractOutcomes(context: ExtractContext, forecast: ForecastSource, writeReport: ReportWriter,
                               now: DateTime)
    ensures var r := PerformExtract(context, forecast, writeReport, now).result;
      var f := forecast(context.requestedUtc);
      (f.Threw? ==> r == Failure(1, Some(ExtractFailedMessage), now, Some(f.exception))) &&
      (f == Returned([]) ==> r == Failure(1, Some(NoForecastMessage), now, None)) &&
      (f.Returned? && f.value != [] ==>
        var e := writeReport(context.requestedUtc, f.value);
        (e == Returned(true) ==> r == Success(1, now)) &&
        (e == Returned(false) ==> r == Failure(1, Some(ReportFailedMessage), now, None)) &&
        (e.Threw? ==> r == Failure(1, Some(ExtractFailedMessage), now, Some(e.exception))))
  {
  }
}
