/** An optional value, for the source's `null`, `undefined` and failed matches. */
module Options {
  datatype Option<T> = None | Some(value: T)
}
