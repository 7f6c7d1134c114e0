/** A value that may be absent, for all modules. */
module Options {
  datatype Option<T> = None | Some(value: T)
}
