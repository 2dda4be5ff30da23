/** The optional value used wherever the app has `null`, `NaN` or a thrown error. */
module Wrappers {
  datatype Option<T> = None | Some(value: T)
}
