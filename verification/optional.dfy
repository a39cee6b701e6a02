/** The absent-or-present value used wherever the client holds `null`/`undefined` or a value. */
module Optional {
  datatype Option<+T> = None | Some(value: T)
}
