/** The optional value used wherever the lookup answers Python's `None`. */
module Options {
  datatype Option<+T> = None | Some(value: T)
}
