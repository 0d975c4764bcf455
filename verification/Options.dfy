/** The optional value used for nullable columns and absent fields. */
module Options {
  datatype Option<+T> = None | Some(value: T)
}
