/** `RetryService.ExecuteWithRetryAsync`: run an operation up to
    `MaxRetryAttempts` times, stop at the first result the success condition
    accepts, wait `RetryDelaySeconds` between attempts, re-throw cancellation,
    and otherwise report a failure carrying the last exception seen.

    The operation, the cancellation token and the delay are outside the
    model: a `Script` says, attempt by attempt, what each of them does. The
    method `ExecuteWithRetry` follows the source's loop; `RetrySpec` says in
    closed form what a run does (find the first attempt that ends the run,
    then read the result off that attempt); the lemmas after it state the
    service's promises about `RetrySpec`. */
module Retry {
  import opened Common
  import opened ExtractResults
  import opened ExtractContexts
  import Text

  /** What the world does during one retry sequence; attempts count from 1. */
  datatype Script<T> = Script(
    operation: nat -> Outcome<T>,   // what `await operation()` yields on attempt k
    cancelledAtCheck: nat -> bool,  // the token is cancelled when attempt k checks it (line 23)
    cancelledInDelay: nat -> bool)  // the token is cancelled during the delay after attempt k

  /** The observable calls of a run: the operation, and `RetryWithDelay`. */
  datatype Event = Invoked(attempt: nat) | Delayed(attempt: nat)

  /** How `ExecuteWithRetryAsync` ends: it returns a result or it throws. */
  datatype Completion = Completed(result: ExtractResult) | Raised(exception: Exception)

  datatype RetryRun = RetryRun(completion: Completion, attempts: nat, trace: seq<Event>)

  /** The largest delay `Task.Delay` accepts, in milliseconds (`uint.MaxValue - 1`). */
  const MaxDelayMilliseconds: int := 0xFFFF_FFFE

  /** `Task.Delay(TimeSpan.FromSeconds(seconds), token)` rejects a duration
      below -1 ms or above the timer's maximum before it looks at the token. */
  predicate DelayRejects(seconds: int) {
    seconds * 1000 < -1 || seconds * 1000 > MaxDelayMilliseconds
  }

  /** `RetryWithDelay`: the delay either elapses, or is cut short by the token,
      or is refused for its duration. Its length in time is not modelled. */
  function RetryWithDelay(retryDelaySeconds: int, cancelled: bool): (r: Outcome<()>)
    ensures r.Threw? <==> DelayRejects(retryDelaySeconds) || cancelled
    ensures DelayRejects(retryDelaySeconds) ==> r == Threw(ArgumentOutOfRange("delay"))
    ensures !DelayRejects(retryDelaySeconds) && cancelled ==> r == Threw(OperationCanceled)
  {
    if DelayRejects(retryDelaySeconds) then Threw(ArgumentOutOfRange("delay"))
    else if cancelled then Threw(OperationCanceled)
    else Returned(())
  }

  const FailurePrefix: string := "Operation failed after "
  const FailureSuffix: string := " attempts"

  /** The message of the final failure: "Operation failed after {MaxRetryAttempts} attempts".
      It opens with the fixed prefix, closes with the fixed suffix, and the
      text in between reads back as the attempt limit. */
  function FailureMessage(maxRetryAttempts: int): (m: string)
    ensures |m| > |FailurePrefix| + |FailureSuffix|
    ensures m[..|FailurePrefix|] == FailurePrefix && m[|m| - |FailureSuffix|..] == FailureSuffix
    ensures var digits := m[|FailurePrefix|..|m| - |FailureSuffix|];
      |digits| >= 1 && Text.AllDigits(digits[1..]) && (digits[0] != '-' ==> Text.AllDigits(digits)) &&
      (digits[0] == '0' ==> |digits| == 1) && (digits[0] == '-' ==> |digits| >= 2 && digits[1] != '0') &&
      Text.ParseDecimal(digits) == maxRetryAttempts
  {
    var digits := Text.IntToDecimal(maxRetryAttempts);
    var m := FailurePrefix + digits + FailureSuffix;
    assert m[..|FailurePrefix|] == FailurePrefix;
    assert m[|m| - |FailureSuffix|..] == FailureSuffix;
    assert m[|FailurePrefix|..|m| - |FailureSuffix|] == digits;
    Text.IntDecimalRoundTrip(maxRetryAttempts);
    m
  }

  /** Different attempt limits give different failure messages. */
  lemma FailureMessageInjective(a: int, b: int)
    requires a != b
    ensures FailureMessage(a) != FailureMessage(b)
  {
  }

  // ------------------------------------------------------------ specification

  /** How attempt k ends, once it has started. */
  datatype AttemptEnd =
    | CancelledBeforeRun   // the check before the attempt threw
    | OperationCancelled   // the operation threw a cancellation
    | Succeeded            // the success condition accepted the result
    | Retrying             // it failed, the delay elapsed, the loop goes on
    | DelayCancelled       // it failed and the delay was cancelled
    | DelayRejected        // it failed and the delay refused its duration
    | Exhausted            // it failed and it was the last allowed attempt

  /** Attempt k ran the operation and the operation failed in a retryable way:
      it returned a result the condition refuses, or threw something other
      than a cancellation. */
  predicate Failed<T>(s: Script<T>, ok: T -> bool, k: nat) {
    !s.cancelledAtCheck(k) &&
    match s.operation(k)
    case Returned(v) => !ok(v)
    case Threw(e) => !e.IsCancellation()
  }

  function EndAfterFailure<T>(s: Script<T>, ctx: ExtractContext, k: nat): (end: AttemptEnd)
    ensures end == Exhausted <==> k >= ctx.maxRetryAttempts
    ensures end == Retrying ==> k < ctx.maxRetryAttempts
  {
    if k >= ctx.maxRetryAttempts then Exhausted
    else if DelayRejects(ctx.retryDelaySeconds) then DelayRejected
    else if s.cancelledInDelay(k) then DelayCancelled
    else Retrying
  }

  function EndOf<T>(s: Script<T>, ok: T -> bool, ctx: ExtractContext, k: nat): (end: AttemptEnd)
    ensures end == Retrying ==> k < ctx.maxRetryAttempts
    ensures end == Retrying || end == Exhausted || end == DelayCancelled || end == DelayRejected
            <==> Failed(s, ok, k)
  {
    if s.cancelledAtCheck(k) then CancelledBeforeRun
    else match s.operation(k)
      case Returned(v) => if ok(v) then Succeeded else EndAfterFailure(s, ctx, k)
      case Threw(e) => if e.IsCancellation() then OperationCancelled else EndAfterFailure(s, ctx, k)
  }

  /** The first attempt from k on that ends the run. */
  function FirstStopFrom<T>(s: Script<T>, ok: T -> bool, ctx: ExtractContext, k: nat): (j: nat)
    requires 1 <= k <= ctx.maxRetryAttempts
    ensures k <= j <= ctx.maxRetryAttempts && EndOf(s, ok, ctx, j) != Retrying
    ensures forall i :: k <= i < j ==> EndOf(s, ok, ctx, i) == Retrying
    decreases ctx.maxRetryAttempts - k
  {
    if EndOf(s, ok, ctx, k) != Retrying then k else FirstStopFrom(s, ok, ctx, k + 1)
  }

  /** The exception of the latest attempt up to n whose operation threw
      something other than a cancellation; a later attempt that merely fails
      the condition does not clear it. */
  function LastException<T>(s: Script<T>, n: nat): Option<Exception>
    decreases n
  {
    if n == 0 then None
    else match s.operation(n)
      case Threw(e) => if e.IsCancellation() then LastException(s, n - 1) else Some(e)
      case Returned(_) => LastException(s, n - 1)
  }

  /** The calls attempt k makes. On a refused delay after a rejected result
      the source calls `RetryWithDelay` twice: once in the `try` block and
      once more in the `catch (Exception)` block that caught the refusal. */
  function AttemptEvents<T>(s: Script<T>, ok: T -> bool, ctx: ExtractContext, k: nat): seq<Event> {
    match EndOf(s, ok, ctx, k)
    case CancelledBeforeRun => []
    case OperationCancelled => [Invoked(k)]
    case Succeeded => [Invoked(k)]
    case Exhausted => [Invoked(k)]
    case Retrying => [Invoked(k), Delayed(k)]
    case DelayCancelled => [Invoked(k), Delayed(k)]
    case DelayRejected =>
      if s.operation(k).Returned? then [Invoked(k), Delayed(k), Delayed(k)] else [Invoked(k), Delayed(k)]
  }

  function TraceUpTo<T>(s: Script<T>, ok: T -> bool, ctx: ExtractContext, n: nat): seq<Event>
    decreases n
  {
    if n == 0 then [] else TraceUpTo(s, ok, ctx, n - 1) + AttemptEvents(s, ok, ctx, n)
  }

  function CompletionAt<T>(s: Script<T>, ok: T -> bool, ctx: ExtractContext, now: DateTime, k: nat): Completion
    requires 1 <= k <= ctx.maxRetryAttempts && EndOf(s, ok, ctx, k) != Retrying
  {
    match EndOf(s, ok, ctx, k)
    case CancelledBeforeRun => Raised(OperationCanceled)
    case OperationCancelled => Raised(OperationCanceled)
    case DelayCancelled => Raised(OperationCanceled)
    case DelayRejected => Raised(ArgumentOutOfRange("delay"))
    case Succeeded => Completed(Success(k, now))
    case Exhausted =>
      Completed(Failure(k, Some(FailureMessage(ctx.maxRetryAttempts)), now, LastException(s, k)))
  }

  /** What a run does: nothing but a failure when no attempt is allowed;
      otherwise the attempts up to the first one that ends the run. `now` is
      the clock reading the result factories take. */
  function RetrySpec<T>(s: Script<T>, ok: T -> bool, ctx: ExtractContext, now: DateTime): RetryRun {
    if ctx.maxRetryAttempts <= 0 then
      RetryRun(Completed(Failure(0, Some(FailureMessage(ctx.maxRetryAttempts)), now, None)), 0, [])
    else
      var k := FirstStopFrom(s, ok, ctx, 1);
      RetryRun(CompletionAt(s, ok, ctx, now, k), k, TraceUpTo(s, ok, ctx, k))
  }

  // ------------------------------------------------------------ the service

  /** `ExecuteWithRetryAsync(operation, successCondition, context, token)`. */
  method ExecuteWithRetry<T>(s: Script<T>, successCondition: T -> bool, context: ExtractContext,
                             now: DateTime)
    returns (run: RetryRun)
    ensures run == RetrySpec(s, successCondition, context, now)
  {
    ghost var ok := successCondition;
    var attempt: Int32 := 0;
    var lastException: Option<Exception> := None;
    var trace: seq<Event> := [];
    while attempt < context.maxRetryAttempts
      invariant 0 <= attempt && (context.maxRetryAttempts > 0 ==> attempt <= context.maxRetryAttempts)
      invariant context.maxRetryAttempts <= 0 ==> attempt == 0
      invariant forall j :: 1 <= j < attempt ==> EndOf(s, ok, context, j) == Retrying
      invariant 0 < attempt ==>
                  EndOf(s, ok, context, attempt) == (if attempt < context.maxRetryAttempts then Retrying else Exhausted)
      invariant lastException == LastException(s, attempt)
      invariant trace == TraceUpTo(s, ok, context, attempt)
    {
      attempt := attempt + 1;
      if s.cancelledAtCheck(attempt) {
        FirstStopIs(s, ok, context, attempt);
        return RetryRun(Raised(OperationCanceled), attempt, trace);
      }
      trace := trace + [Invoked(attempt)];
      match s.operation(attempt)
      case Returned(result) =>
        if successCondition(result) {
          FirstStopIs(s, ok, context, attempt);
          return RetryRun(Completed(Success(attempt, now)), attempt, trace);
        }
        if attempt < context.maxRetryAttempts {
          trace := trace + [Delayed(attempt)];
          var delay := RetryWithDelay(context.retryDelaySeconds, s.cancelledInDelay(attempt));
          if delay.Threw? {
            if delay.exception.IsCancellation() {
              FirstStopIs(s, ok, context, attempt);
              return RetryRun(Raised(delay.exception), attempt, trace);
            }
            // caught by `catch (Exception ex)`, which delays once more
            lastException := Some(delay.exception);
            trace := trace + [Delayed(attempt)];
            var again := RetryWithDelay(context.retryDelaySeconds, s.cancelledInDelay(attempt));
            FirstStopIs(s, ok, context, attempt);
            return RetryRun(Raised(again.exception), attempt, trace);
          }
        }
      case Threw(e) =>
        if e.IsCancellation() {
          FirstStopIs(s, ok, context, attempt);
          return RetryRun(Raised(e), attempt, trace);
        }
        lastException := Some(e);
        if attempt < context.maxRetryAttempts {
          trace := trace + [Delayed(attempt)];
          var delay := RetryWithDelay(context.retryDelaySeconds, s.cancelledInDelay(attempt));
          if delay.Threw? {
            FirstStopIs(s, ok, context, attempt);
            return RetryRun(Raised(delay.exception), attempt, trace);
          }
        }
    }
    if context.maxRetryAttempts > 0 {
      FirstStopIs(s, ok, context, attempt);
    }
    run := RetryRun(Completed(Failure(attempt, Some(FailureMessage(context.maxRetryAttempts)), now,
                                      lastException)), attempt, trace);
  }

  // ------------------------------------------------------------ proof helpers

  lemma {:induction false} FirstStopFromIs<T>(s: Script<T>, ok: T -> bool, ctx: ExtractContext, i: nat, k: nat)
    requires 1 <= i <= k <= ctx.maxRetryAttempts
    requires forall j :: i <= j < k ==> EndOf(s, ok, ctx, j) == Retrying
    requires EndOf(s, ok, ctx, k) != Retrying
    ensures FirstStopFrom(s, ok, ctx, i) == k
    decreases k - i
  {
    if i < k {
      FirstStopFromIs(s, ok, ctx, i + 1, k);
    }
  }

  /** An attempt that ends the run, after attempts that all retried, is the first stop. */
  lemma FirstStopIs<T>(s: Script<T>, ok: T -> bool, ctx: ExtractContext, k: nat)
    requires 1 <= k <= ctx.maxRetryAttempts
    requires forall j :: 1 <= j < k ==> EndOf(s, ok, ctx, j) == Retrying
    requires EndOf(s, ok, ctx, k) != Retrying
    ensures FirstStopFrom(s, ok, ctx, 1) == k
  {
    FirstStopFromIs(s, ok, ctx, 1, k);
  }

  function CountInvoked(t: seq<Event>): nat {
    if t == [] then 0 else CountInvoked(t[..|t| - 1]) + (if t[|t| - 1].Invoked? then 1 else 0)
  }

  function CountDelayed(t: seq<Event>): nat {
    if t == [] then 0 else CountDelayed(t[..|t| - 1]) + (if t[|t| - 1].Delayed? then 1 else 0)
  }

  lemma {:induction false} CountsOfConcat(t: seq<Event>, u: seq<Event>)
    ensures CountInvoked(t + u) == CountInvoked(t) + CountInvoked(u)
    ensures CountDelayed(t + u) == CountDelayed(t) + CountDelayed(u)
    decreases |u|
  {
    if u != [] {
      assert (t + u)[..|t + u| - 1] == t + u[..|u| - 1];
      CountsOfConcat(t, u[..|u| - 1]);
    } else {
      assert t + u == t;
    }
  }

  /** The events of one retried attempt hold one call and one delay; those
      of a final attempt hold one call and no delay. */
  lemma PairCounts(n: nat)
    ensures CountInvoked([Invoked(n), Delayed(n)]) == 1 && CountDelayed([Invoked(n), Delayed(n)]) == 1
    ensures CountInvoked([Invoked(n)]) == 1 && CountDelayed([Invoked(n)]) == 0
  {
    var single, pair := [Invoked(n)], [Invoked(n), Delayed(n)];
    assert single[..0] == [];
    assert CountInvoked(single) == 1 && CountDelayed(single) == 0;
    assert pair[..1] == single && pair[1] == Delayed(n);
    assert CountInvoked(pair) == CountInvoked(single);
    assert CountDelayed(pair) == CountDelayed(single) + 1;
  }

  /** Attempts that fail and retry, repeated n times, call the operation n
      times and the delay n times. */
  lemma {:induction false} RetryingCounts<T>(s: Script<T>, ok: T -> bool, ctx: ExtractContext, n: nat)
    requires forall j :: 1 <= j <= n ==> EndOf(s, ok, ctx, j) == Retrying
    ensures CountInvoked(TraceUpTo(s, ok, ctx, n)) == n
    ensures CountDelayed(TraceUpTo(s, ok, ctx, n)) == n
    decreases n
  {
    if n > 0 {
      RetryingCounts(s, ok, ctx, n - 1);
      var pair := [Invoked(n), Delayed(n)];
      assert EndOf(s, ok, ctx, n) == Retrying;
      assert AttemptEvents(s, ok, ctx, n) == pair;
      assert TraceUpTo(s, ok, ctx, n) == TraceUpTo(s, ok, ctx, n - 1) + pair;
      CountsOfConcat(TraceUpTo(s, ok, ctx, n - 1), pair);
      PairCounts(n);
    }
  }

  /** Every call in the trace up to attempt n belongs to an attempt from 1 to
      n; the operation is called in strictly increasing attempts, so at most
      once per attempt; and a delay never follows the last allowed attempt. */
  lemma {:induction false} TraceUpToShape<T>(s: Script<T>, ok: T -> bool, ctx: ExtractContext, n: nat)
    ensures forall i :: 0 <= i < |TraceUpTo(s, ok, ctx, n)| ==> 1 <= TraceUpTo(s, ok, ctx, n)[i].attempt <= n
    ensures forall i :: 0 <= i < |TraceUpTo(s, ok, ctx, n)| && TraceUpTo(s, ok, ctx, n)[i].Delayed? ==>
              TraceUpTo(s, ok, ctx, n)[i].attempt < ctx.maxRetryAttempts
    ensures forall i, j ::
              (0 <= i < j < |TraceUpTo(s, ok, ctx, n)| &&
               TraceUpTo(s, ok, ctx, n)[i].Invoked? && TraceUpTo(s, ok, ctx, n)[j].Invoked?) ==>
              TraceUpTo(s, ok, ctx, n)[i].attempt < TraceUpTo(s, ok, ctx, n)[j].attempt
    decreases n
  {
    if n > 0 {
      TraceUpToShape(s, ok, ctx, n - 1);
      var t, a := TraceUpTo(s, ok, ctx, n - 1), AttemptEvents(s, ok, ctx, n);
      assert forall i :: 0 <= i < |a| ==> a[i].attempt == n;
      assert forall i :: 0 <= i < |a| && a[i].Delayed? ==> n < ctx.maxRetryAttempts;
      assert forall j :: 1 <= j < |a| ==> !a[j].Invoked?;
      assert TraceUpTo(s, ok, ctx, n) == t + a;
    }
  }

  /** Attempts that failed and whose delay elapsed are the ones that retry. */
  lemma FailedPrefixRetries<T>(s: Script<T>, ok: T -> bool, ctx: ExtractContext, k: nat)
    requires k <= ctx.maxRetryAttempts
    requires forall j :: 1 <= j < k ==> Failed(s, ok, j) && !s.cancelledInDelay(j)
    requires k > 1 ==> !DelayRejects(ctx.retryDelaySeconds)
    ensures forall j :: 1 <= j < k ==> EndOf(s, ok, ctx, j) == Retrying
  {
    forall j | 1 <= j < k ensures EndOf(s, ok, ctx, j) == Retrying {
      assert Failed(s, ok, j);
    }
  }

  // ------------------------------------------------------------ properties

  /** With `MaxRetryAttempts <= 0` the operation is never called and the result
      is `Failure(0, "Operation failed after {Max} attempts", null)`. */
  lemma NoAttemptAllowed<T>(s: Script<T>, ok: T -> bool, ctx: ExtractContext, now: DateTime)
    requires ctx.maxRetryAttempts <= 0
    ensures var run := RetrySpec(s, ok, ctx, now);
      run.attempts == 0 && run.trace == [] &&
      run.completion == Completed(Failure(0, Some(FailureMessage(ctx.maxRetryAttempts)), now, None))
  {
  }

  /** A run makes between 1 and `MaxRetryAttempts` attempts (none when that
      is not positive), calls the operation at most once per attempt, and
      never for an attempt it did not make, and delays only after an attempt
      that is not the last allowed one. */
  lemma RunShape<T>(s: Script<T>, ok: T -> bool, ctx: ExtractContext, now: DateTime)
    ensures var run := RetrySpec(s, ok, ctx, now);
      (ctx.maxRetryAttempts <= 0 ==> run.attempts == 0) &&
      (ctx.maxRetryAttempts > 0 ==> 1 <= run.attempts <= ctx.maxRetryAttempts) &&
      (forall i :: 0 <= i < |run.trace| ==> 1 <= run.trace[i].attempt <= run.attempts) &&
      (forall i :: 0 <= i < |run.trace| && run.trace[i].Delayed? ==>
         run.trace[i].attempt < ctx.maxRetryAttempts) &&
      (forall i, j :: 0 <= i < j < |run.trace| && run.trace[i].Invoked? && run.trace[j].Invoked? ==>
         run.trace[i].attempt < run.trace[j].attempt)
  {
    if ctx.maxRetryAttempts > 0 {
      TraceUpToShape(s, ok, ctx, FirstStopFrom(s, ok, ctx, 1));
    }
  }

  /** Earlier attempts failed, their delays elapsed, and attempt k's result
      satisfies the condition: the run returns `Success(k)` and makes no
      call for any later attempt. */
  lemma FirstSuccessWins<T>(s: Script<T>, ok: T -> bool, ctx: ExtractContext, now: DateTime, k: nat)
    requires 1 <= k <= ctx.maxRetryAttempts
    requires forall j :: 1 <= j < k ==> Failed(s, ok, j) && !s.cancelledInDelay(j)
    requires k > 1 ==> !DelayRejects(ctx.retryDelaySeconds)
    requires !s.cancelledAtCheck(k) && s.operation(k).Returned? && ok(s.operation(k).value)
    ensures var run := RetrySpec(s, ok, ctx, now);
      run.completion == Completed(Success(k, now)) && run.attempts == k &&
      forall i :: 0 <= i < |run.trace| ==> run.trace[i].attempt <= k
  {
    FailedPrefixRetries(s, ok, ctx, k);
    FirstStopIs(s, ok, ctx, k);
    RunShape(s, ok, ctx, now);
  }

  /** Every allowed attempt failed (a refused result or a non-cancellation
      exception) and every delay elapsed: the run returns `Failure(Max,
      "Operation failed after {Max} attempts", last exception)` after exactly
      Max calls of the operation and Max - 1 delays. */
  lemma AllAttemptsFail<T>(s: Script<T>, ok: T -> bool, ctx: ExtractContext, now: DateTime)
    requires ctx.maxRetryAttempts >= 1
    requires forall j :: 1 <= j <= ctx.maxRetryAttempts ==> Failed(s, ok, j)
    requires forall j :: 1 <= j < ctx.maxRetryAttempts ==> !s.cancelledInDelay(j)
    requires ctx.maxRetryAttempts > 1 ==> !DelayRejects(ctx.retryDelaySeconds)
    ensures var run := RetrySpec(s, ok, ctx, now);
      var max := ctx.maxRetryAttempts;
      run.completion == Completed(Failure(max, Some(FailureMessage(max)), now, LastException(s, max))) &&
      run.attempts == max &&
      CountInvoked(run.trace) == max && CountDelayed(run.trace) == max - 1
  {
    var max := ctx.maxRetryAttempts;
    FailedPrefixRetries(s, ok, ctx, max);
    assert Failed(s, ok, max);
    assert EndOf(s, ok, ctx, max) == Exhausted;
    FirstStopIs(s, ok, ctx, max);
    RetryingCounts(s, ok, ctx, max - 1);
    assert AttemptEvents(s, ok, ctx, max) == [Invoked(max)];
    CountsOfConcat(TraceUpTo(s, ok, ctx, max - 1), [Invoked(max)]);
    PairCounts(max);
  }

  /** The failure's exception is the one thrown by the most recent attempt
      that threw, and null when no attempt threw. */
  lemma {:induction false} LastExceptionIsMostRecent<T>(s: Script<T>, n: nat)
    ensures LastException(s, n).Some? ==>
      exists j :: 1 <= j <= n && s.operation(j) == Threw(LastException(s, n).value) &&
        !LastException(s, n).value.IsCancellation() &&
        forall i :: j < i <= n ==> !(s.operation(i).Threw? && !s.operation(i).exception.IsCancellation())
    ensures LastException(s, n).None? <==>
      forall j :: 1 <= j <= n ==> !(s.operation(j).Threw? && !s.operation(j).exception.IsCancellation())
    decreases n
  {
    if n > 0 {
      LastExceptionIsMostRecent(s, n - 1);
    }
  }

  /** Cancellation, whether the check before an attempt, the operation or the
      delay raises it, ends the run by propagating it: it is neither retried
      nor turned into a failure result. */
  lemma CancellationPropagates<T>(s: Script<T>, ok: T -> bool, ctx: ExtractContext, now: DateTime, k: nat)
    requires 1 <= k <= ctx.maxRetryAttempts
    requires forall j :: 1 <= j < k ==> Failed(s, ok, j) && !s.cancelledInDelay(j)
    requires k > 1 ==> !DelayRejects(ctx.retryDelaySeconds)
    requires || s.cancelledAtCheck(k)
             || (!s.cancelledAtCheck(k) && s.operation(k) == Threw(OperationCanceled))
             || (Failed(s, ok, k) && k < ctx.maxRetryAttempts && !DelayRejects(ctx.retryDelaySeconds)
                 && s.cancelledInDelay(k))
    ensures var run := RetrySpec(s, ok, ctx, now);
      run.completion == Raised(OperationCanceled) && run.attempts == k &&
      forall i :: 0 <= i < |run.trace| ==> run.trace[i].attempt <= k
  {
    FailedPrefixRetries(s, ok, ctx, k);
    FirstStopIs(s, ok, ctx, k);
    RunShape(s, ok, ctx, now);
  }

  /** Conversely, a run that returns a result saw no cancellation in any
      attempt it made. */
  lemma CompletedRunSawNoCancellation<T>(s: Script<T>, ok: T -> bool, ctx: ExtractContext, now: DateTime)
    ensures var run := RetrySpec(s, ok, ctx, now);
      run.completion.Completed? ==>
        forall j :: 1 <= j <= run.attempts ==>
          !s.cancelledAtCheck(j) && s.operation(j) != Threw(OperationCanceled) &&
          (j < run.attempts ==> !s.cancelledInDelay(j))
  {
    if ctx.maxRetryAttempts > 0 {
      var k := FirstStopFrom(s, ok, ctx, 1);
      var end := EndOf(s, ok, ctx, k);
      if CompletionAt(s, ok, ctx, now, k).Completed? {
        assert end == Succeeded || end == Exhausted;
        forall j | 1 <= j <= k
          ensures !s.cancelledAtCheck(j) && s.operation(j) != Threw(OperationCanceled)
          ensures j < k ==> !s.cancelledInDelay(j)
        {
          if j < k { assert EndOf(s, ok, ctx, j) == Retrying; }
        }
      }
    }
  }
}
