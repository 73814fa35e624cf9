/** The values the source writes as a missing, null or undefined value. */
module Wrappers {
  datatype Option<+T> = None | Some(value: T)
}
