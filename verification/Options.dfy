/** A value that may be missing: a null pointer, a failed lookup, an exception in place of a result. */
module Options {
  datatype Option<+T> = None | Some(value: T)
}
