/** Option and Result values used wherever the application either produces a
    value or throws / returns nothing. */
module Results {

  datatype Option<+T> = None | Some(value: T) {
    function GetOr(default: T): T {
      match this
      case Some(v) => v
      case None => default
    }
  }

  /** `Err` carries the message of the `Error` the application throws. */
  datatype Result<+T> = Ok(value: T) | Err(message: string)
}
