/** Optional values, success-or-error results and bytes, shared by every module of the model. */
module Base {

  /** An unsigned 8-bit value, as held in Foundation's `Data`. */
  type byte = b: int | 0 <= b < 0x100

  /** Swift's `Optional`. */
  datatype Option<T> = None | Some(value: T) {
    /** The `??` operator: the wrapped value, or `default` when there is none. */
    function GetOr(default: T): T {
      match this
      case Some(v) => v
      case None => default
    }
  }

  /** Swift's `Result<Success, Failure>`. */
  datatype Result<T, E> = Success(value: T) | Failure(error: E)
}
