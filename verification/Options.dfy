/** A value that may be absent: a null pointer, or a search that finds nothing. */
module Options {
  datatype Option<+T> = None | Some(value: T)
}
