/** A record kept in a file: `None` when the file does not exist. */
module Store {
  datatype Option<T> = None | Some(value: T)
}
