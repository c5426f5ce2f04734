/** The usual optional-value wrapper, used where the source reads a key that may be absent. */
module Options {
  datatype Option<+T> = None | Some(value: T)
}
