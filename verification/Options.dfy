/** A value that may be absent: the source's null pointers, empty optionals and empty handles. */
module Options {
  datatype Option<+T> = None | Some(value: T)
}
