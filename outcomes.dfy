/**
 * Values that cross the boundary to code this model does not contain:
 * what a JavaScript `throw` carries, and what one call to an external
 * capability (a prompt, a store, an auth service) did.
 */
module Outcomes {

  /** A thrown value: an `Error` instance carries a message; any other value
      is only ever shown through `String(value)`. */
  datatype Thrown = ErrorObject(message: string) | OtherValue(shown: string)

  /** What one awaited call did: resolved with an output, or rejected. */
  datatype Outcome<+T> = Success(output: T) | Failure(error: Thrown)

  datatype Option<+T> = None | Some(value: T)

  /** The text a catch block works with:
      `error instanceof Error ? error.message : String(error)`. */
  function ErrorText(e: Thrown): (t: string)
    ensures e.ErrorObject? ==> t == e.message
    ensures e.OtherValue? ==> t == e.shown
  {
    match e
    case ErrorObject(m) => m
    case OtherValue(s) => s
  }

  /** JavaScript's `a || fallback` where `a` is a string or null/undefined:
      the empty string is falsy, so it falls through as well. */
  function OrElse(a: Option<string>, fallback: string): (r: string)
    ensures r == fallback || (a.Some? && r == a.value && r != "")
    ensures a.Some? && a.value != "" ==> r == a.value
  {
    if a.Some? && a.value != "" then a.value else fallback
  }
}
