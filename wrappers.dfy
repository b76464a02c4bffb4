/** Failure-compatible helper datatypes shared by the other modules. */
module Wrappers {

  /** A value that may be missing (a SQL NULL, a `null` reference, an `undefined` lookup). */
  datatype Option<+T> = None | Some(value: T)

  /** The value an operation returns, or the error it throws. */
  datatype Result<+T, +E> = Ok(value: T) | Err(error: E)

  /** The completion of an operation that returns nothing, or the error it throws. */
  datatype Outcome<+E> = Pass | Fail(error: E)

  /** A key of a JavaScript partial object: left out (`undefined`) or given a value. */
  datatype Supplied<+T> = Omitted | Given(value: T)

  /** The value held by `o`, or `default` when there is none. */
  function OrElse<T>(o: Option<T>, default: T): T
  {
    if o.Some? then o.value else default
  }
}
