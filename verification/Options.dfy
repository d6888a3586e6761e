/** A value that may be missing: the `undefined` and `null` of the modelled code. */
module Options {
  datatype Option<+T> = None | Some(value: T)
}
