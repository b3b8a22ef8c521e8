/** Optional values (the source's `null`) and success/failure outcomes (a thrown error). */
module Wrappers {

  /** `None` stands for a JavaScript `null` (or a missing value). */
  datatype Option<+T> = None | Some(value: T) {
    function GetOr(default: T): T {
      match this
      case Some(v) => v
      case None => default
    }
  }

  /** The outcome of a call into a collaborator that may throw or return an error object. */
  datatype Result<+T> = Ok(value: T) | Err(message: string)
}
