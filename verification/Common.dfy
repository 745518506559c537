/** Types the modules share. */
module Common {
  datatype Option<T> = None | Some(value: T)

  newtype byte = b: int | 0 <= b < 256
}
