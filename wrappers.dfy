/** Optional values (JavaScript's `undefined`) and results of operations that can throw. */
module Wrappers {

  /** A value that may be absent, as a JavaScript `undefined` or SQL `null`. */
  datatype Option<+T> = None | Some(value: T)

  /** The outcome of an operation that either returns a value or throws. */
  datatype Result<+T, +E> = Ok(value: T) | Err(error: E)

  /** JavaScript's `x || ''` on an optional string: absent and empty strings both give ''. */
  function OrEmpty(o: Option<string>): string
  {
    if o.Some? then o.value else ""
  }
}
