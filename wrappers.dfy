/** Python's `None`-or-value results, made explicit. */
module Wrappers {

  datatype Option<+T> = None | Some(value: T)
}
