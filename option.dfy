/** The optional value used for environment variables and for text that may not parse. */
module Option {
  datatype Option<+T> = None | Some(value: T)
}
