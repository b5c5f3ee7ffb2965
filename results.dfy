/** The optional-value and outcome wrappers shared by every module of the model. */
module Results {

  /** A value that may be absent: a TypedDict key that is not set. */
  datatype Option<+T> = None | Some(value: T) {
    /** The `dict.get(key, default)` reading of an optional field. */
    function GetOr(default: T): T {
      match this
      case Some(v) => v
      case None => default
    }
  }

  /**
   * A key of a step's partial update over the same key of the state: a key
   * the update sets wins; an absent one leaves the old value.
   */
  function Over<T>(prior: Option<T>, update: Option<T>): Option<T> {
    if update.Some? then update else prior
  }

  /** The outcome of an operation that may raise. */
  datatype Result<+R, +E> = Success(value: R) | Failure(error: E)
}
