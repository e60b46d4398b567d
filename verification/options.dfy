/** The optional value used wherever the emulator returns `Option<T>`. */
module Options {
  datatype Option<T> = None | Some(value: T)
}
