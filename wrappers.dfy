/** An optional value, for Python's "may be absent" results and fields. */
module Wrappers {

  datatype Option<+T> = None | Some(value: T)
}
