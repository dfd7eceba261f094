/** A value that may be absent: JavaScript's `null`/`undefined` for a field or a stored entry. */
module Optional {
  datatype Option<+T> = None | Some(value: T)
}
