/** The optional values used throughout the model, in place of Go's nil pointers and nil errors. */
module Options {
  datatype Option<+T> = None | Some(value: T)
}
