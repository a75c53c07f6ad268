/** The optional value used where the source can hold `NaN`. */
module Wrappers {
  datatype Option<+T> = None | Some(value: T)
}
