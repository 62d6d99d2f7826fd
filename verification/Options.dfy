/** A value that may be absent: a pointer that may be NULL, a match that may fail. */
module Options {
  datatype Option<+T> = None | Some(value: T)
}
