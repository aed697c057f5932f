// A value that may be missing: Go's nil, missing map entries and second results.
module Options {
  datatype Option<+T> = None | Some(value: T)
}
