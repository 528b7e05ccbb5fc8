/** The optional value used where the source returns `None` or a regular-expression
    search finds nothing. */
module Options {
  datatype Option<T> = None | Some(value: T)
}
