/** The optional value used throughout the model, standing for a JavaScript
    value that may be `undefined`. */
module Wrappers {

  datatype Option<+T> = None | Some(value: T)
}
