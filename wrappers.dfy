/** Option and Result values for the storefront model: JavaScript's
    `undefined` becomes None, a thrown or rejected call becomes an Err. */
module Wrappers {

  datatype Option<+T> = None | Some(value: T) {
    function GetOr(default: T): T {
      match this
      case Some(v) => v
      case None => default
    }
  }

  datatype Result<+T, +E> = Ok(value: T) | Err(error: E)
}
