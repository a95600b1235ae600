/** The optional value used wherever the source has "missing", null or a thrown parse error. */
module Wrappers {

  datatype Option<+T> = None | Some(value: T)
}
