/** Datatypes for Go's nil pointers and error returns, used by the input layer.
    - Option<T> stands for Go's nilable pointers (`*bool`, `*InputOptions`): None is nil.
    - Result<R, E> stands for Go's `(value, error)` return pair.
 */
module Wrappers {

  /** Some(v) for a set pointer, None for nil. */
  datatype Option<+T> = None | Some(value: T) {

    /** The pointed-to value, or `default` when the pointer is nil. */
    function GetOr(default: T): T {
      match this
      case Some(v) => v
      case None => default
    }
  }

  /** Success(v) for a nil error, Failure(e) for a non-nil one. */
  datatype Result<+R, +E> = Success(value: R) | Failure(error: E)
}
