/** A value that may be missing: Python's None or a present value. */
module Options {

  datatype Option<T> = None | Some(value: T) {

    /** The present value, or `default` when missing (Python's `d.get(key, default)`). */
    function GetOr(default: T): T {
      match this
      case Some(v) => v
      case None => default
    }
  }
}
