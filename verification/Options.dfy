/** A value that may be absent: Go's nil results, missing map entries and parse failures. */
module Options {
  datatype Option<T> = None | Some(value: T)
}
