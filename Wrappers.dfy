/** Option, for values that may be absent (a null label, a failed parse). */
module Wrappers {

  datatype Option<+T> = None | Some(value: T)
}
