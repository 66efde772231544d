/** A value that may be absent: JavaScript's `null` or `undefined`. */
module Optional {
  datatype Option<T> = None | Some(value: T)
}
