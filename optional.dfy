/** JavaScript's `undefined`/`null` for a field that may be absent. */
module Optional {
  datatype Option<+T> = None | Some(value: T)
}
