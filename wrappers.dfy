/** Small value wrappers shared by the model: a value that may be absent
    (a dictionary key that `.get` does not find) and the outcome of an
    operation that may raise a Python exception. */
module Wrappers {

  datatype Option<+T> = None | Some(value: T) {
    /** `d.get(key, default)`: the stored value, or the default when absent. */
    function GetOr(default: T): T {
      match this
      case Some(v) => v
      case None => default
    }
  }

  /** Either a value, or the message of the exception the source raises. */
  datatype Result<+T> = Success(value: T) | Failure(error: string)
}
