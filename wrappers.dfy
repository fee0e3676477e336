/** Option and Result, the two failure-carrying datatypes the model uses for
    nullable values (`null`, `undefined`, an unset Python attribute) and for
    operations that can raise. */
module Wrappers {

  datatype Option<+T> = None | Some(value: T) {

    /** The wrapped value, or `default` when there is none. */
    function GetOr(default: T): T {
      match this
      case Some(v) => v
      case None => default
    }
  }

  datatype Result<+R, +E> = Success(value: R) | Failure(error: E)
}
