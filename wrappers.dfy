/** The optional-value datatype used throughout the model: a Python value that is either
    present or `None`. */
module Wrappers {

  datatype Option<+T> = None | Some(value: T)
}
