/** The optional value used for Python's `None`-or-value results and settings keys. */
module Options {
  datatype Option<+T> = None | Some(value: T) {
    /** `value` when present, `default` otherwise (Python's `d.get(key, default)`). */
    function GetOr(default: T): T {
      match this
      case Some(v) => v
      case None => default
    }
  }
}
