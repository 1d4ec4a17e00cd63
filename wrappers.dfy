/** Failure-compatible result types used for the exceptions the modelled code throws. */
module Wrappers {

  datatype Option<+T> = None | Some(value: T) {
    /** C#'s `x ?? fallback` on a nullable value. */
    function GetOr(fallback: T): T {
      match this
      case Some(v) => v
      case None => fallback
    }
  }

  datatype Result<+T, +E> = Success(value: T) | Failure(error: E)

  /** Outcome of a call that either returns normally or throws `error`. */
  datatype Outcome<+E> = Pass | Fail(error: E)

  /** The exceptions raised by the modelled code. */
  datatype Error =
    | PrerequisitesMissing(required: bv16)  // a stage gate of the configurer failed
    | NullValue                             // `.Value` of a null nullable, or a null dereference
    | TooManyBenchmarks                     // more than five benchmark names
}
