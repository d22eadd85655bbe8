/** The optional value used for parsed answers and table lookups. */
module Options {
  datatype Option<+T> = None | Some(value: T)
}
