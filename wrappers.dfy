/** Optional values and success/failure results, standing for `T | null`,
    `undefined` and thrown errors in the modelled TypeScript. */
module Wrappers {

  datatype Option<+T> = None | Some(value: T)

  datatype Result<+R, +E> = Success(value: R) | Failure(error: E)
}
