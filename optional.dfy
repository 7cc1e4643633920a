/** The absent-or-present value used wherever the source reads a field that may be undefined. */
module Optional {

  datatype Option<+T> = None | Some(value: T)
}
