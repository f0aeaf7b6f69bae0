/** A value or none: the optional results and pointers of the sources. */
module Options {
  datatype Option<T> = None | Some(value: T)
}
