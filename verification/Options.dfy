/** The optional value used throughout: the source's `Option`. */
module Options {
  datatype Option<+T> = None | Some(value: T)
}
