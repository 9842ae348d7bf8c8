/** An optional value: `None` where the C code holds a null pointer or has recorded nothing yet. */
module Options {
  datatype Option<T> = None | Some(value: T)
}
