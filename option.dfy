/** The optional value used wherever the source may yield `null`/`undefined`. */
module Optional {
  datatype Option<T> = None | Some(value: T)
}
