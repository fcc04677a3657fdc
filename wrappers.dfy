/** The optional value used throughout the model: `None` stands for JavaScript's
    `null`/`undefined` wherever the source distinguishes "no value". */
module Wrappers {
  datatype Option<+T> = None | Some(value: T)
}
