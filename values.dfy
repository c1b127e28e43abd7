/**
 * The few JavaScript runtime notions the application's logic depends on:
 * truthiness of optional strings, the `||` fallback operator, thrown values
 * and the `instanceof Error` test, and awaited calls that resolve or reject.
 */
module Values {
  import opened Wrappers

  /** A string-valued field is truthy when it is present and not empty. */
  predicate Truthy(s: Option<string>) {
    s.Some? && s.value != ""
  }

  /** `s || fallback` for an optional string. */
  function OrElse(s: Option<string>, fallback: string): (r: string)
    ensures Truthy(s) ==> r == s.value
    ensures !Truthy(s) ==> r == fallback
  {
    if Truthy(s) then s.value else fallback
  }

  /** `s || null` for an optional string: a falsy string becomes `null`. */
  function OrNull(s: Option<string>): (r: Option<string>)
    ensures Truthy(s) ==> r == s
    ensures !Truthy(s) ==> r == None
  {
    if Truthy(s) then s else None
  }

  /** A value thrown by `throw` or by a rejected promise. */
  datatype Thrown =
    | ErrorValue(message: string)   // an instance of `Error` (or a subclass)
    | OtherValue                    // anything else that can be thrown

  /** `thrown instanceof Error ? thrown.message : fallback` */
  function MessageOr(thrown: Thrown, fallback: string): (r: string)
    ensures thrown.ErrorValue? ==> r == thrown.message
    ensures thrown.OtherValue? ==> r == fallback
  {
    match thrown
    case ErrorValue(m) => m
    case OtherValue => fallback
  }

  /** The settled state of an awaited promise. */
  datatype Awaited<+T> = Resolved(value: T) | Rejected(thrown: Thrown)

  /** An opaque handle on a `File` object chosen by the user. */
  datatype File = File(handle: nat)
}
