/** Small failure-carrying datatypes shared by the modules of this model. */
module Wrappers {

  /** A value that may be missing: a JavaScript exception or a failed lookup is None. */
  datatype Option<+T> = None | Some(value: T)
}
