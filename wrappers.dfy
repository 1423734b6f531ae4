/** Optional values and success-or-error results, used for JavaScript `null` and for thrown errors. */
module Wrappers {

  datatype Option<+T> = None | Some(value: T)

  datatype Result<+R, +E> = Success(value: R) | Failure(error: E)

  /** Resolving or rejecting a promise that may already have settled: only the first outcome counts. */
  function Settle<T>(settled: Option<T>, outcome: T): (r: Option<T>)
    ensures r.Some?
    ensures settled.Some? ==> r == settled
    ensures settled.None? ==> r == Some(outcome)
  {
    if settled.Some? then settled else Some(outcome)
  }
}
