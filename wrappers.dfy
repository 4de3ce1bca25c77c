/** The optional-value datatype used throughout the model. */
module Wrappers {

  /** `Option<String>` in the source: a stored session token, a captured token. */
  datatype Option<+T> = None | Some(value: T)
}
