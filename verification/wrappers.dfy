/** The absent-or-present value the graph builders return where the source returns None. */
module Wrappers {

  datatype Option<+T> = None | Some(value: T)
}
