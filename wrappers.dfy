/** The optional-value type used throughout the model (Go's nil values and "ok" results). */
module Wrappers {

  datatype Option<+T> = None | Some(value: T)
}
