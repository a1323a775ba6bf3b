/** Optional values (JavaScript `undefined`) and results of operations that can fail. */
module Wrappers {

  /** `None` stands for a JavaScript value that is `undefined` or missing. */
  datatype Option<+T> = None | Some(value: T) {

    /** `x || d` for a value whose only falsy form is absence */
    function GetOr(default: T): T {
      match this
      case Some(v) => v
      case None => default
    }
  }

  /** The outcome of a promise: resolved with a value or rejected with an error message. */
  datatype Result<+T> = Ok(value: T) | Err(error: string)
}
