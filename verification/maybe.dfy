/** The usual optional value, used where the source returns None. */
module Maybe {
  datatype Option<+T> = None | Some(value: T)
}
