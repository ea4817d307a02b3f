/** The source's `null` (a missing date, a failed parse, the end of input) as an explicit value. */
module Wrappers {

  datatype Option<+T> = None | Some(value: T)
}
