/** Failure-carrying values shared by every module of the model. */
module Common {

  datatype Option<+T> = None | Some(value: T)

  /** The value of a call that either returns or throws an `E`. */
  datatype Result<+T, +E> = Ok(value: T) | Err(error: E)

  /** The value of a call that returns nothing useful or throws an `E`. */
  datatype Outcome<+E> = Pass | Fail(error: E)

  /** What a `catch (error)` block receives: an `Error` object carrying a
      message, or any other thrown value. */
  datatype Thrown = ErrorObject(message: string) | OtherValue

  /** `error instanceof Error ? error.message : fallback`, the message the
      hooks store in their `error` cell. */
  function MessageOf(e: Thrown, fallback: string): (m: string)
    ensures e.ErrorObject? ==> m == e.message
    ensures e.OtherValue? ==> m == fallback
  {
    match e
    case ErrorObject(msg) => msg
    case OtherValue => fallback
  }

  /** JavaScript truthiness of an optional string: `null` and `""` are falsy. */
  predicate Truthy(s: Option<string>)
  {
    s.Some? && s.value != ""
  }
}
