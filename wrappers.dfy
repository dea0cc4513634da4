/** An optional value: `None` stands for Python's `None` and for PHP's missing entries. */
module Wrappers {

  datatype Option<+T> = None | Some(value: T)
}
