/** The nullable columns of the database, and results that may be absent. */
module Options {
  datatype Option<+T> = None | Some(value: T)
}
