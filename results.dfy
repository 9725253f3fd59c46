/** Small wrapper types for values that may be absent and calls that may throw. */
module Results {

  /** A JavaScript value that is either set or `undefined`/`null`. */
  datatype Option<T> = None | Some(value: T)

  /** How a call that may throw ended. */
  datatype Outcome = Done | Thrown(message: string)

  /** A constructor call that either produced an object or threw. */
  datatype Result<T> = Ok(value: T) | Error(message: string)
}
