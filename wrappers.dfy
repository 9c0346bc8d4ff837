/** Optional values, used where JavaScript yields `undefined` or `null`. */
module Wrappers {

  datatype Option<+T> = None | Some(value: T)

  /** The outcome of a step that may throw: JavaScript's TypeError becomes `Failure`. */
  datatype Result<+T> = Success(value: T) | Failure(error: string)
}
