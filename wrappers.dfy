/**
 * Failure-carrying values shared by the flow and the page: an optional value,
 * a success-or-failure result, and the value a JavaScript `throw` carries.
 */
module Wrappers {

  datatype Option<+T> = None | Some(value: T)

  datatype Result<+R, +E> = Success(value: R) | Failure(error: E)

  /**
   * A thrown JavaScript value: an `Error` instance, whose `message` the
   * handlers read, or any other value (a rejected `FileReader` event, say),
   * for which they substitute a fixed text.
   */
  datatype Thrown = Error(message: string) | NonError

  /** `err instanceof Error ? err.message : fallback` */
  function MessageOr(e: Thrown, fallback: string): (m: string)
    ensures e.Error? ==> m == e.message
    ensures e.NonError? ==> m == fallback
  {
    match e
    case Error(msg) => msg
    case NonError => fallback
  }
}
