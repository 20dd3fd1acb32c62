/** The optional value used throughout the model for Go's `nil` results and for
    runs that end in a panic. */
module Wrappers {

  datatype Option<+T> = None | Some(value: T)
}
