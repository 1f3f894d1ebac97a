/** Values that may be absent, and outcomes that may be refusals. */
module Wrappers {
  datatype Option<+T> = None | Some(value: T)
}
