/** Optional values and effect outcomes shared by the registry model. */
module Wrappers {

  /** A value that may be absent: a SQL NULL, a missing row, a missing key. */
  datatype Option<+T> = None | Some(value: T) {

    /** The wrapped value, or `default` when absent. */
    function GetOr(default: T): T {
      match this
      case Some(v) => v
      case None => default
    }
  }

  /** The result of an effect whose only payload is an error message:
      creating a folder, saving a document. */
  datatype Outcome = Pass | Fail(message: string)
}
