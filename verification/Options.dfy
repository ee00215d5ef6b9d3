/** A value that may be absent: a nil pointer or an unset field. */
module Options {
  datatype Option<+T> = None | Some(value: T)
}
