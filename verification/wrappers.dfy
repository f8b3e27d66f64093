/** Option and Result values used for the shop engine's lookups and error paths. */
module Wrappers {

  /** A value that may be absent (a lookup that found nothing, a form field that did not parse). */
  datatype Option<+T> = None | Some(value: T)

  /** The outcome of an operation that the shop code either completes or aborts with an error. */
  datatype Result<+T, +E> = Success(value: T) | Failure(error: E)
}
