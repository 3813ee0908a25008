/** The optional value used throughout the model, for a Go nil, a missing key or a failed parse. */
module Options {
  datatype Option<+T> = None | Some(value: T)
}
