/** The optional value used wherever the source has `T | undefined` or a lookup that may fail. */
module Options {
  datatype Option<+T> = None | Some(value: T) {
    /** The value when present, otherwise `default` (the `x ?? d` of the source). */
    function GetOr(default: T): T {
      match this
      case Some(v) => v
      case None => default
    }
  }
}
