/** The optional value every module of the board model shares. */
module Options {
  datatype Option<T> = None | Some(value: T)
}
