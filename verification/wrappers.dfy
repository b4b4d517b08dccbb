/** Failure-carrying results shared by the model: the source's `Optional`/nullable
    returns become `Option`, its `Either<L, R>` becomes `Either`. */
module Wrappers {

  datatype Option<+T> = None | Some(value: T)

  /** `Left` carries the error, `Right` the success value, as in the source's Either. */
  datatype Either<+L, +R> = Left(left: L) | Right(right: R)
}
