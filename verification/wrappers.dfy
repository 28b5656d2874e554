/** Option and Result wrappers used by the rest of the model.
    - Option<T>: a JavaScript argument that may be left `undefined`
    - Result<R, E>: a value, or the error a JavaScript function would throw
 */
module Wrappers {

  datatype Option<+T> = None | Some(value: T) {

    /** The wrapped value, or `default` when absent (JavaScript's default-parameter rule). */
    function GetOr(default: T): T
    {
      match this
      case Some(v) => v
      case None => default
    }
  }

  datatype Result<+R, +E> = Ok(value: R) | Err(error: E)
}
