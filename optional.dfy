/** An optional value, for Python arguments and results that may be None. */
module Optional {
  datatype Option<T> = None | Some(value: T)
}
