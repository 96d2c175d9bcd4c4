/** The optional value used wherever the source may yield nothing (a failed conversion). */
module Wrappers {
  datatype Option<+T> = None | Some(value: T)
}
