/** What the components' `catch` blocks make of a thrown value. */
module Errors {

  /** A value thrown inside a handler's `try` block: an `Error` object, which
      carries a message, or any other value. */
  datatype Thrown = ErrorObject(message: string) | OtherValue

  /** The message shown when the thrown value is not an `Error`. */
  const FallbackMessage := "An error occurred"

  /** The text both components store in `error` for a thrown value:
      `err instanceof Error ? err.message : 'An error occurred'`. */
  function ShownMessage(t: Thrown): (m: string)
    ensures t.ErrorObject? ==> m == t.message
    ensures t.OtherValue? ==> m == FallbackMessage
  {
    match t
    case ErrorObject(message) => message
    case OtherValue => FallbackMessage
  }
}
