/** A value that may be absent: the model of the source's optional fields. */
module Options {
  datatype Option<+T> = None | Some(value: T)
}
