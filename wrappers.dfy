/** The optional value the tools store where Python keeps `None` or a value. */
module Wrappers {
  datatype Option<+T> = None | Some(value: T)
}
