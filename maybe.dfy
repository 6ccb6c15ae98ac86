/** An optional value: Python's `None` or a value. */
module Maybe {
  datatype Option<+T> = None | Some(value: T)
}
