/** The usual Some/None wrapper, used for Python values that may be `None`. */
module Optional {
  datatype Option<+T> = None | Some(value: T)
}
