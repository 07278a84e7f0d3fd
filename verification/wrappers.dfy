/** Null-or-value and value-or-exception wrappers shared by every module.
    `None` stands for a C# `null` reference; `Failure` for an exception the
    modelled operation throws instead of returning. */
module Wrappers {

  datatype Option<+T> = None | Some(value: T) {

    /** The wrapped value, or `default` for a null reference. */
    function GetOr(default: T): T {
      match this
      case Some(v) => v
      case None => default
    }
  }

  datatype Result<+R, +E> = Success(value: R) | Failure(error: E)
}
