/** Small value wrappers shared by every module of the model. */
module Wrappers {

  /** A nullable value: `None` stands for JavaScript's `null` and `undefined`. */
  datatype Option<+T> = None | Some(value: T) {
    function GetOr(default: T): T {
      match this
      case Some(v) => v
      case None => default
    }
  }

  /** A success value or an error message. */
  datatype Result<+T> = Ok(value: T) | Err(message: string)
}
