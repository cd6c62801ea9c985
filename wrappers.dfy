/** Optional values and the outcome of a step that can fail. */
module Wrappers {

  /** A value that may be absent (JavaScript's `undefined`/`null`). */
  datatype Option<+T> = None | Some(value: T)

  /** The outcome of an awaited call: a value, or a rejection whose reason
      the callers in this model only log. */
  datatype Result<+T> = Ok(value: T) | Fail
}
