/** The optional-value datatype the model uses in place of Python's `None`. */
module Wrappers {

  datatype Option<+T> = None | Some(value: T)
}
