/** The optional value used throughout the model: a nullable column, a missing map entry, or
    an event that is not enabled in a state. */
module Options {
  datatype Option<+T> = None | Some(value: T)
}
