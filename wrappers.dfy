/** Option and Result, plus the outcome of a call into code outside the model
    (a browser, an HTTP API, a language model, a PDF renderer): it either
    returns a value or raises an exception with a message. */
module Wrappers {

  datatype Option<+T> = None | Some(value: T) {
    function GetOr(default: T): T {
      match this
      case Some(v) => v
      case None => default
    }
  }

  datatype Result<+R, +E> = Success(value: R) | Failure(error: E)

  /** What a call into an external collaborator did: `return r` or `raise e`. */
  datatype CallOutcome<+T> = Returned(value: T) | Raised(message: string)
}
