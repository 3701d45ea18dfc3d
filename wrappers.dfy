/** Optional values and results shared by the components of the model. */
module Wrappers {

  /** A value that may be missing: `formData.get` returning null, a DOM lookup that finds
      nothing, an optional prop left undefined. */
  datatype Option<+T> = None | Some(value: T) {
    /** The value, or `default` when there is none. */
    function GetOr(default: T): T
    {
      match this
      case Some(v) => v
      case None => default
    }
  }

  /** The outcome of a parse that either yields a value or reports a failure. */
  datatype Result<+R, +E> = Success(value: R) | Failure(error: E)
}
