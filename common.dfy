/** Small shared datatypes. */
module Wrappers {

  /** A value that may be missing: `undefined` in the modelled code. */
  datatype Option<T> = None | Some(value: T)
}
