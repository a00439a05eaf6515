/** Wrappers used across the model: an optional value
    (a PHP array key that may be unset) and a success-or-error result
    (a value, or the message of the exception the API action throws). */
module Wrappers {

  datatype Option<+T> = None | Some(value: T) {

    /** The wrapped value, or `default` when there is none. */
    function GetOr(default: T): T {
      if Some? then value else default
    }
  }

  datatype Result<+R, +E> = Success(value: R) | Failure(error: E)
}
