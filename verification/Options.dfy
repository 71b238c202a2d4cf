/** A value that may be absent: the source's `null` or `undefined`. */
module Options {
  datatype Option<+T> = None | Some(value: T) {
    function GetOr(fallback: T): T {
      if Some? then value else fallback
    }
  }
}
