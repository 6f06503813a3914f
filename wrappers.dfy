/** Undefined values. A floating-point NaN in the data frame is `None` here. */
module Wrappers {

  datatype Option<+T> = None | Some(value: T)
}
