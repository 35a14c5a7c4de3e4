/** Small datatypes shared by the modules of this model. */
module Wrappers {

  /** A value that may be missing: a lookup that finds nothing, a parse that fails. */
  datatype Option<T> = None | Some(value: T)
}
