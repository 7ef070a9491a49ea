/** The optional value used where the C code may return NULL instead of a row. */
module Options {

  datatype Option<+T> = None | Some(value: T)
}
