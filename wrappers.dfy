/** The optional-value datatype shared by the parser and the aggregation. */
module Wrappers {
  datatype Option<+T> = None | Some(value: T)
}
