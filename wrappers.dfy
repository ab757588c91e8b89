/** The optional value used throughout the model: Go's nil map and
    "no '=' found" are both `None`. */
module Wrappers {

  datatype Option<+T> = None | Some(value: T)
}
