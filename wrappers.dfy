/** Option and Result, the failure-carrying values every other module returns. */
module Wrappers {

  /** A value that may be missing: JavaScript's `undefined`/`null` next to a real value. */
  datatype Option<+T> = None | Some(value: T)

  /** The outcome of an operation that either returns a value or throws. */
  datatype Result<+T, +E> = Ok(value: T) | Err(error: E)

  /** What a resolver or middleware throws: a plain message, or a validation
      record (field -> message) that the source turns into JSON text. */
  datatype Failure = Fail(message: string) | FieldErrors(errors: map<string, string>)
}
