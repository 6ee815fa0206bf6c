/** The result of a lookup that may find nothing (a C NULL, a Swift nil). */
module Options {
  datatype Option<+T> = None | Some(value: T)
}
