/** Small shared datatypes. */
module Common {

  /** A value that may be absent; `None` stands for Python's `None`. */
  datatype Option<+T> = None | Some(value: T)
}
