/** The usual Some/None wrapper, for values a JavaScript object may or may not carry. */
module Optional {
  datatype Option<+T> = None | Some(value: T)
}
