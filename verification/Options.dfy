/** An optional value: a file that may be absent, a column that may be NULL. */
module Options {
  datatype Option<+T> = None | Some(value: T)
}
