/** The conventional optional value, used where the controllers use the empty string or nil. */
module Options {
  datatype Option<+T> = None | Some(value: T)
}
