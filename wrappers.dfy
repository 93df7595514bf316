/** Option and Result, the two failure-carrying wrappers the model uses for the
    source's nullable values and thrown exceptions. */
module Wrappers {

  /** A nullable value: `None` stands for C# `null`. */
  datatype Option<+T> = None | Some(value: T) {

    /** The `??` operator: the value if present, otherwise the fallback. */
    function GetOr(fallback: T): T {
      match this
      case Some(v) => v
      case None => fallback
    }
  }

  /** The outcome of an operation that may throw: `Err` carries the exception kind. */
  datatype Result<+T, +E> = Ok(value: T) | Err(error: E)
}
