/** Vocabulary shared by every module of the model: the .NET value types the
    source relies on, written out with their ranges, and the exceptions it
    throws, catches and stores. */
module Common {

  const MinInt32: int := -0x8000_0000
  const MaxInt32: int := 0x7fff_ffff

  /** A C# `int`: every arithmetic result that lands in one must be shown to fit. */
  type Int32 = x: int | MinInt32 <= x <= MaxInt32

  /** A .NET `DateTime`, as its tick count (100 ns units since 0001-01-01).
      `DateTime.MinValue` and `default(DateTime)` are both tick 0. */
  type DateTime = nat

  const MinValue: DateTime := 0
  const TicksPerMillisecond: nat := 10_000
  const TicksPerSecond: nat := 1000 * TicksPerMillisecond
  const TicksPerMinute: nat := 60 * TicksPerSecond
  const TicksPerHour: nat := 60 * TicksPerMinute
  const TicksPerDay: nat := 24 * TicksPerHour

  /** A nullable reference. */
  datatype Option<+T> = None | Some(value: T)

  /** The exceptions that matter to the core. `OperationCanceled` also stands
      for its subclass `TaskCanceledException`, which `Task.Delay` throws. */
  datatype Exception =
    | OperationCanceled
    | ObjectDisposed(objectName: string)
    | ArgumentOutOfRange(paramName: string)
    | NullReference
    | Other(typeName: string, message: string)
  {
    /** True for what a `catch (OperationCanceledException)` clause catches. */
    predicate IsCancellation() {
      OperationCanceled?
    }
  }

  /** How a call into code outside the model ends: with a value, or by throwing. */
  datatype Outcome<+T> = Returned(value: T) | Threw(exception: Exception)
}
