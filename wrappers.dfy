/** An optional value; `None` is a failed conversion. */
module Wrappers {

  datatype Option<+T> = None | Some(value: T)
}
