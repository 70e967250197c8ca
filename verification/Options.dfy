/** A value that may be absent: a nil reference, a missing key, an unset field. */
module Options {
  datatype Option<+T> = None | Some(value: T)
}
