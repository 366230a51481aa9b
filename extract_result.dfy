/** `ExtractResult`: the immutable outcome of one extraction or of a whole
    retry sequence. It is only ever built through its two factories. */
module ExtractResults {
  import opened Common

  /** All five properties are init-only in the source; a datatype value never changes. */
  datatype ExtractResult = ExtractResult(
    isSuccess: bool,
    attemptsMade: Int32,
    completedAt: DateTime,
    errorMessage: Option<string>,
    exception: Option<Exception>)

  /** A result the factories can produce: a success never carries an error. */
  predicate Consistent(r: ExtractResult) {
    r.isSuccess ==> r.errorMessage == None && r.exception == None
  }

  /** `ExtractResult.Success(attemptsMade)`. `now` is the clock reading
      `DateTime.UtcNow` takes at construction. The attempt count is stored
      without validation: zero, negative and `int.MaxValue` are kept. */
  function Success(attemptsMade: Int32, now: DateTime): (r: ExtractResult)
    ensures r.isSuccess && Consistent(r)
    ensures r.attemptsMade == attemptsMade && r.completedAt == now
  {
    ExtractResult(true, attemptsMade, now, None, None)
  }

  /** `ExtractResult.Failure(attemptsMade, errorMessage, exception = null)`.
      A null (`None`) or empty message is kept verbatim. */
  function Failure(attemptsMade: Int32, errorMessage: Option<string>, now: DateTime,
                   exception: Option<Exception> := None): (r: ExtractResult)
    ensures !r.isSuccess && Consistent(r)
    ensures r.attemptsMade == attemptsMade && r.completedAt == now
    ensures r.errorMessage == errorMessage && r.exception == exception
  {
    ExtractResult(false, attemptsMade, now, errorMessage, exception)
  }

  /** A consistent result is exactly one of the two factories' products, and
      `isSuccess` says which. */
  lemma {:induction false} ConsistentIsFactoryMade(r: ExtractResult)
    requires Consistent(r)
    ensures r.isSuccess ==> r == Success(r.attemptsMade, r.completedAt)
    ensures !r.isSuccess ==> r == Failure(r.attemptsMade, r.errorMessage, r.completedAt, r.exception)
  {
  }
}
