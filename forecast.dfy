/** `ForcastCallingService` (Infrastructure): fetch the day's trades from the
    power service and add them up period by period into hourly rows. */
module Forecast {
  import opened Common

  /** One period of a trade. Volumes are `double` in the source; here they are integers. */
  datatype PowerPeriod = PowerPeriod(period: int, volume: int)

  datatype PowerTrade = PowerTrade(date: DateTime, periods: seq<PowerPeriod>)

  /** `InputItemDto`: one aggregated hourly row. */
  datatype InputItem = InputItem(dateTime: DateTime, volume: int)

  /** Reply of `IPowerService.GetTradesAsync(requestedUtc)`. */
  type PowerService = DateTime -> Outcome<seq<PowerTrade>>

  /** `trades.Min(t => t.Periods.Length)`: the period count every trade has. */
  function MinPeriods(trades: seq<PowerTrade>): (m: nat)
    requires trades != []
    ensures forall j :: 0 <= j < |trades| ==> m <= |trades[j].periods|
    ensures exists j :: 0 <= j < |trades| && m == |trades[j].periods|
  {
    if |trades| == 1 then |trades[0].periods|
    else
      var rest := MinPeriods(trades[1..]);
      if |trades[0].periods| <= rest then |trades[0].periods| else rest
  }

  /** `trades.Sum(t => t.Periods[i].Volume)`: nothing without trades, and
      with no negative volume, at least each trade's own volume. */
  function TotalVolume(trades: seq<PowerTrade>, i: nat): (v: int)
    requires forall j :: 0 <= j < |trades| ==> i < |trades[j].periods|
    ensures trades == [] ==> v == 0
    ensures (forall j :: 0 <= j < |trades| ==> trades[j].periods[i].volume >= 0) ==>
      v >= 0 && forall j :: 0 <= j < |trades| ==> trades[j].periods[i].volume <= v
  {
    if trades == [] then 0 else trades[0].periods[i].volume + TotalVolume(trades[1..], i)
  }

  /** The sum splits over any partition of the trades, so it does not depend
      on how the provider groups them. */
  lemma {:induction false} TotalVolumeSplits(a: seq<PowerTrade>, b: seq<PowerTrade>, i: nat)
    requires forall j :: 0 <= j < |a| ==> i < |a[j].periods|
    requires forall j :: 0 <= j < |b| ==> i < |b[j].periods|
    ensures forall j :: 0 <= j < |a + b| ==> i < |(a + b)[j].periods|
    ensures TotalVolume(a + b, i) == TotalVolume(a, i) + TotalVolume(b, i)
    decreases |a|
  {
    assert forall j :: 0 <= j < |a + b| ==> (a + b)[j] == if j < |a| then a[j] else b[j - |a|];
    if a != [] {
      assert (a + b)[1..] == a[1..] + b;
      TotalVolumeSplits(a[1..], b, i);
    } else {
      assert a + b == b;
    }
  }

  /** `new DateTime(t.Year, t.Month, t.Day, t.Hour, 0, 0)`: the start of t's hour. */
  function TruncateToHour(t: DateTime): (h: DateTime)
    ensures h <= t < h + TicksPerHour && h % TicksPerHour == 0
  {
    t - t % TicksPerHour
  }

  /** The row for period i (counted from 0): the requested hour plus i + 1
      hours, i.e. the one hour-aligned instant in the hour that ends i + 1
      hours after the request. */
  function RowTime(requestedUtc: DateTime, i: nat): (r: DateTime)
    ensures r % TicksPerHour == 0
    ensures requestedUtc + i * TicksPerHour < r <= requestedUtc + (i + 1) * TicksPerHour
  {
    TruncateToHour(requestedUtc) + (i + 1) * TicksPerHour
  }

  /** `GetTradesFromExternalServiceAsync`: the provider's trades, or an empty
      list when the provider throws; the exception is logged and dropped. */
  method GetTradesFromExternalService(powerService: PowerService, requestedUtc: DateTime)
    returns (trades: seq<PowerTrade>)
    ensures powerService(requestedUtc).Returned? ==> trades == powerService(requestedUtc).value
    ensures powerService(requestedUtc).Threw? ==> trades == []
  {
    trades := [];
    match powerService(requestedUtc)
    case Returned(t) =>
      trades := t;
    case Threw(_) =>
  }

  /** `GetForcastAsync(requestedUtc)`: no rows without trades; otherwise one
      row per period that every trade has, whose volume is the sum over the
      trades and whose time is one hour later than the previous row's, the
      first falling one hour after the start of the requested hour. */
  method GetForcast(powerService: PowerService, requestedUtc: DateTime) returns (rows: seq<InputItem>)
    ensures powerService(requestedUtc).Threw? ==> rows == []
    ensures powerService(requestedUtc) == Returned([]) ==> rows == []
    ensures powerService(requestedUtc).Returned? && powerService(requestedUtc).value != [] ==>
      var trades := powerService(requestedUtc).value;
      |rows| == MinPeriods(trades) &&
      forall i :: 0 <= i < |rows| ==> rows[i] == InputItem(RowTime(requestedUtc, i), TotalVolume(trades, i))
    ensures forall i :: 0 <= i < |rows| ==>
      rows[i].dateTime % TicksPerHour == 0 && requestedUtc < rows[i].dateTime
    ensures forall i :: 0 < i < |rows| ==> rows[i].dateTime == rows[i - 1].dateTime + TicksPerHour
  {
    rows := [];
    var trades := GetTradesFromExternalService(powerService, requestedUtc);
    if |trades| == 0 {
      return;
    }
    var periodsCount := MinPeriods(trades);
    for i := 0 to periodsCount
      invariant |rows| == i
      invariant forall j :: 0 <= j < i ==> rows[j] == InputItem(RowTime(requestedUtc, j), TotalVolume(trades, j))
    {
      var calculatedVolume := TotalVolume(trades, i);
      var periodCounter := i + 1;
      var auxDate := TruncateToHour(requestedUtc);
      var periodAsDateTime := auxDate + periodCounter * TicksPerHour;
      rows := rows + [InputItem(periodAsDateTime, calculatedVolume)];
    }
  }
}
