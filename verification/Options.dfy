/** Values that may be missing. */
module Options {
  datatype Option<+T> = None | Some(value: T) {
    function GetOr(other: T): T { if Some? then value else other }
  }

  /** A value, or why there is none. */
  datatype Result<+T, +E> = Ok(value: T) | Err(error: E)
}
