/** `TimerService`: a periodic trigger whose callback never runs twice at
    once. The `System.Threading.Timer` it owns is modelled by its due time,
    its period and whether it is disposed; when the runtime fires it is not
    modelled: a tick is an explicit call. `SemaphoreSlim(1, 1)` is the flag
    `busy`. */
module Timers {
  import opened Common

  /** `Timeout.Infinite`: as due time it suspends the timer. */
  const Infinite: int := -1

  /** A registered `Func<Task>`, by identity. */
  datatype Callback = Callback(id: nat)

  /** A `System.Threading.Timer`. */
  datatype Timer = Timer(dueTime: int, period: int, disposed: bool)

  /** How an awaited callback ended. */
  datatype CallbackOutcome = Finished | Faulted(exception: Exception)

  /** The public calls made on a service, in order. */
  datatype TimerCall =
    | StartCall(intervalMs: int, callback: Option<Callback>)
    | StopCall
    | UpdateIntervalCall(intervalMs: int)
    | DisposeCall

  /** How a tick begins: skipped for one of three reasons, or running the callback. */
  datatype TickStart = SkippedDisposed | SkippedNoCallback | SkippedBusy | Running(callback: Callback)

  /** Phases of the state machine the service implements. */
  datatype Phase = Idle | Scheduled | Disposed

  /** `new Timer(callback, null, dueTime, period)`: both values must be at
      least `Timeout.Infinite` (an `int` can never exceed the upper limit). */
  function NewTimer(dueTime: Int32, period: Int32): (r: Outcome<Timer>)
    ensures r.Returned? <==> dueTime >= Infinite && period >= Infinite
    ensures r.Returned? ==> r.value == Timer(dueTime, period, false)
  {
    if dueTime < Infinite then Threw(ArgumentOutOfRange("dueTime"))
    else if period < Infinite then Threw(ArgumentOutOfRange("period"))
    else Returned(Timer(dueTime, period, false))
  }

  /** `timer.Change(dueTime, period)`: the arguments are checked first, then
      a disposed timer refuses the change. */
  function ChangeTimer(t: Timer, dueTime: Int32, period: Int32): (r: Outcome<Timer>)
    ensures r.Returned? <==> dueTime >= Infinite && period >= Infinite && !t.disposed
    ensures r.Returned? ==> r.value == Timer(dueTime, period, false)
  {
    if dueTime < Infinite then Threw(ArgumentOutOfRange("dueTime"))
    else if period < Infinite then Threw(ArgumentOutOfRange("period"))
    else if t.disposed then Threw(ObjectDisposed("Timer"))
    else Returned(t.(dueTime := dueTime, period := period))
  }

  /** The timer after `Change`: it keeps its old schedule when the change throws. */
  function AfterChange(t: Timer, ms: Int32): Timer {
    var c := ChangeTimer(t, ms, ms);
    if c.Returned? then c.value else t
  }

  function StatusOf(o: Outcome<Timer>): Outcome<()> {
    if o.Threw? then Threw(o.exception) else Returned(())
  }

  class TimerService {
    var disposed: bool
    var callback: Option<Callback>
    var timer: Option<Timer>
    var busy: bool
    ghost var calls: seq<TimerCall>

    /** The phase: disposed is terminal; a live timer with a finite due time fires. */
    function CurrentPhase(): (p: Phase)
      reads this
      ensures p == Disposed <==> disposed
    {
      if disposed then Disposed
      else if timer.Some? && !timer.value.disposed && timer.value.dueTime != Infinite then Scheduled
      else Idle
    }

    constructor()
      ensures !disposed && callback == None && timer == None && !busy && calls == []
      ensures CurrentPhase() == Idle
    {
      disposed, callback, timer, busy := false, None, None, false;
      calls := [];
    }

    /** `Start(intervalMs, callback)`: after `Dispose` it throws and changes
      nothing. Otherwise it stores the new callback, disposes the old timer
      and creates one firing every `intervalMs`; an interval below
      `Timeout.Infinite` makes the constructor throw after the first two
      steps, leaving the disposed old timer in place. */
    method Start(intervalMs: Int32, cb: Option<Callback>) returns (status: Outcome<()>)
      modifies this`callback, this`timer, this`calls
      ensures calls == old(calls) + [StartCall(intervalMs, cb)]
      ensures disposed == old(disposed) && busy == old(busy)
      ensures old(disposed) ==>
        status == Threw(ObjectDisposed("TimerService")) && callback == old(callback) && timer == old(timer)
      ensures !old(disposed) ==> callback == cb
      ensures !old(disposed) && intervalMs >= Infinite ==>
        status == Returned(()) && timer == Some(Timer(intervalMs, intervalMs, false))
      ensures !old(disposed) && intervalMs < Infinite ==>
        status == Threw(ArgumentOutOfRange("dueTime")) &&
        timer == if old(timer).Some? then Some(old(timer).value.(disposed := true)) else None
    {
      calls := calls + [StartCall(intervalMs, cb)];
      if disposed {
        return Threw(ObjectDisposed("TimerService"));
      }
      callback := cb;
      if timer.Some? {
        timer := Some(timer.value.(disposed := true));
      }
      var created := NewTimer(intervalMs, intervalMs);
      if created.Threw? {
        return Threw(created.exception);
      }
      timer := Some(created.value);
      status := Returned(());
    }

    /** `Stop()`: suspends the timer; a no-op when disposed or never started. */
    method Stop() returns (status: Outcome<()>)
      modifies this`timer, this`calls
      ensures calls == old(calls) + [StopCall]
      ensures disposed == old(disposed) && callback == old(callback) && busy == old(busy)
      ensures old(disposed) || old(timer).None? ==> status == Returned(()) && timer == old(timer)
      ensures !old(disposed) && old(timer).Some? ==>
        status == StatusOf(ChangeTimer(old(timer).value, Infinite, Infinite)) &&
        timer == Some(AfterChange(old(timer).value, Infinite))
      ensures CurrentPhase() == if disposed then Disposed else Idle
    {
      calls := calls + [StopCall];
      if disposed {
        return Returned(());
      }
      status := Returned(());
      if timer.Some? {
        var changed := ChangeTimer(timer.value, Infinite, Infinite);
        status := StatusOf(changed);
        timer := Some(AfterChange(timer.value, Infinite));
      }
    }

    /** `UpdateInterval(intervalMs)`: changes the cadence only; the callback
      stays. A no-op when disposed or never started. */
    method UpdateInterval(intervalMs: Int32) returns (status: Outcome<()>)
      modifies this`timer, this`calls
      ensures calls == old(calls) + [UpdateIntervalCall(intervalMs)]
      ensures disposed == old(disposed) && callback == old(callback) && busy == old(busy)
      ensures old(disposed) || old(timer).None? ==> status == Returned(()) && timer == old(timer)
      ensures !old(disposed) && old(timer).Some? ==>
        status == StatusOf(ChangeTimer(old(timer).value, intervalMs, intervalMs)) &&
        timer == Some(AfterChange(old(timer).value, intervalMs))
    {
      calls := calls + [UpdateIntervalCall(intervalMs)];
      if disposed {
        return Returned(());
      }
      status := Returned(());
      if timer.Some? {
        var changed := ChangeTimer(timer.value, intervalMs, intervalMs);
        status := StatusOf(changed);
        timer := Some(AfterChange(timer.value, intervalMs));
      }
    }

    /** `Dispose()`: the first call marks the service disposed and disposes
      the timer and the semaphore; later calls return at once. */
    method Dispose()
      modifies this`disposed, this`timer, this`calls
      ensures calls == old(calls) + [DisposeCall]
      ensures disposed && callback == old(callback) && busy == old(busy)
      ensures old(disposed) ==> timer == old(timer)
      ensures !old(disposed) ==>
        timer == if old(timer).Some? then Some(old(timer).value.(disposed := true)) else None
      ensures CurrentPhase() == Disposed
    {
      calls := calls + [DisposeCall];
      if disposed {
        return;
      }
      disposed := true;
      if timer.Some? {
        timer := Some(timer.value.(disposed := true));
      }
    }

    /** The first half of `ExecuteCallback`: nothing when disposed or when no
      callback is set; a skip when the guard is held; otherwise the guard is
      taken and the current callback (the one the latest `Start` stored) runs. */
    method BeginTick() returns (start: TickStart)
      modifies this`busy
      ensures old(disposed) ==> start == SkippedDisposed && busy == old(busy)
      ensures !old(disposed) && callback.None? ==> start == SkippedNoCallback && busy == old(busy)
      ensures !old(disposed) && callback.Some? && old(busy) ==> start == SkippedBusy && busy
      ensures !old(disposed) && callback.Some? && !old(busy) ==> start == Running(callback.value) && busy
    {
      if disposed {
        return SkippedDisposed;
      }
      if callback.None? {
        return SkippedNoCallback;
      }
      if busy {
        return SkippedBusy;
      }
      busy := true;
      start := Running(callback.value);
    }

    /** The second half of `ExecuteCallback`, as written: a fault of the
      callback is caught and logged, then `finally` releases the semaphore.
      If the service was disposed while the callback ran, `Release` throws
      `ObjectDisposedException`, and nothing catches it. */
    method EndTick(outcome: CallbackOutcome) returns (logged: Option<Exception>, escaped: Option<Exception>)
      requires busy
      modifies this`busy
      ensures logged == if outcome.Faulted? then Some(outcome.exception) else None
      ensures disposed ==> escaped == Some(ObjectDisposed("SemaphoreSlim")) && busy
      ensures !disposed ==> escaped == None && !busy
    {
      logged := if outcome.Faulted? then Some(outcome.exception) else None;
      if disposed {
        return logged, Some(ObjectDisposed("SemaphoreSlim"));
      }
      busy := false;
      escaped := None;
    }

    /** The second half of `ExecuteCallback` with the release guarded by the
      disposed flag: nothing escapes in any interleaving. */
    method EndTickChecked(outcome: CallbackOutcome) returns (logged: Option<Exception>, escaped: Option<Exception>)
      requires busy
      modifies this`busy
      ensures logged == if outcome.Faulted? then Some(outcome.exception) else None
      ensures escaped == None
      ensures busy == disposed
    {
      logged := if outcome.Faulted? then Some(outcome.exception) else None;
      escaped := None;
      if !disposed {
        busy := false;
      }
    }

    /** A whole `ExecuteCallback`, as written, with nothing in between its
      halves: the callback runs exactly when the service is live, has a
      callback and is not busy; its fault is logged; nothing escapes; and the
      guard is as free afterwards as it was before. */
    method Tick(outcome: CallbackOutcome)
      returns (ran: Option<Callback>, logged: Option<Exception>, escaped: Option<Exception>)
      modifies this`busy
      ensures ran == if !disposed && callback.Some? && !old(busy) then callback else None
      ensures logged == if ran.Some? && outcome.Faulted? then Some(outcome.exception) else None
      ensures escaped == None
      ensures busy == old(busy)
    {
      var start := BeginTick();
      if !start.Running? {
        return None, None, None;
      }
      logged, escaped := EndTick(outcome);
      ran := Some(start.callback);
    }
  }

  /** A second `Start` replaces the callback and the timer: the next tick
      runs the newer callback, not the first. */
  method RestartRunsNewestCallback() returns (ran: Option<Callback>)
    ensures ran == Some(Callback(2))
  {
    var service := new TimerService();
    var first := service.Start(1000, Some(Callback(1)));
    var second := service.Start(100, Some(Callback(2)));
    var logged, escaped;
    ran, logged, escaped := service.Tick(Finished);
  }

  /** After `Dispose` a tick runs nothing and `Start` throws. */
  method NothingRunsAfterDispose() returns (ran: Option<Callback>, restart: Outcome<()>)
    ensures ran == None && restart == Threw(ObjectDisposed("TimerService"))
  {
    var service := new TimerService();
    var started := service.Start(100, Some(Callback(1)));
    service.Dispose();
    var logged, escaped;
    ran, logged, escaped := service.Tick(Finished);
    restart := service.Start(100, Some(Callback(1)));
  }

  /** Disposing the service while its callback runs makes the tick throw
      from its `finally` block, out of the `async void` handler. */
  method DisposeDuringCallback() returns (escaped: Option<Exception>)
    ensures escaped == Some(ObjectDisposed("SemaphoreSlim"))
  {
    var service := new TimerService();
    var _ := service.Start(100, Some(Callback(1)));
    var start := service.BeginTick();
    service.Dispose();
    var logged;
    logged, escaped := service.EndTick(Finished);
  }

  /** The same interleaving with the guarded release lets nothing escape. */
  method DisposeDuringCallbackChecked() returns (escaped: Option<Exception>)
    ensures escaped == None
  {
    var service := new TimerService();
    var _ := service.Start(100, Some(Callback(1)));
    var start := service.BeginTick();
    service.Dispose();
    var logged;
    logged, escaped := service.EndTickChecked(Finished);
  }
}
