/** Optional values and outcomes shared by every module of the model.
    `Option` stands for a JavaScript value that may be `undefined` or `null`;
    `Result` stands for a call that either returns a value or throws. */
module Results {

  datatype Option<+T> = None | Some(value: T) {

    /** A destructuring default: the value unless it is absent. */
    function GetOr(default: T): T {
      match this
      case Some(v) => v
      case None => default
    }
  }

  datatype Result<+R, +E> = Success(value: R) | Failure(error: E)
}
