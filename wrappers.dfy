/** The optional-value type used for every decode that may fail. */
module Wrappers {

  datatype Option<+T> = None | Some(value: T)
}
