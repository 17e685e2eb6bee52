/** A value that may be missing: NULL columns and failed lookups. */
module Options {
  datatype Option<+T> = None | Some(value: T)
}
