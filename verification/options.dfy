/** The conventional optional value, used where the source returns null or has no result. */
module Options {
  datatype Option<+T> = None | Some(value: T)
}
