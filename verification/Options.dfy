/** The optional value used wherever the Python code uses `None`. */
module Options {
  datatype Option<+T> = None | Some(value: T)
}
