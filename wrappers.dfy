/** The optional value that stands for Python's `None` / present value. */
module Wrappers {

  datatype Option<+T> = None | Some(value: T)
}
