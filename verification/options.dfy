/** The usual Some/None datatype, for lookups that can come back empty. */
module Options {
  datatype Option<+T> = None | Some(value: T)
}
