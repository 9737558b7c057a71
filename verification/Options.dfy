/** The optional value shared by every module: a field or argument that may be absent. */
module Options {
  datatype Option<+T> = None | Some(value: T)
}
