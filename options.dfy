/** Rust's `Option<T>`, used for the optional fields of the builders. */
module Options {

  datatype Option<+T> = None | Some(value: T)
}
