/** Optional values and success-or-error results used throughout the model. */
module Results {

  /** Present or absent: the legacy module's logger before `configure`, or a
      level name that did not parse. */
  datatype Option<+T> = None | Some(value: T)

  /** The outcome of a call that either returns a value or throws an error. */
  datatype Result<+T, +E> = Success(value: T) | Failure(error: E)
}
