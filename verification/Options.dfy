/** A value that may be missing: the source's null pointers. */
module Options {

  datatype Option<T> = None | Some(value: T)
}
