/** The optional-value datatype used throughout the model. */
module Wrappers {

  /** `None` stands for PHP's null (or an absent element); `Some(v)` for a present value. */
  datatype Option<+T> = None | Some(value: T)
}
