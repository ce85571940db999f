/** The optional value used for JavaScript's `null`, `undefined` and NaN. */
module Options {
  datatype Option<+T> = None | Some(value: T)
}
