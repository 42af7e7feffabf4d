/** The optional value the views use for "nothing focused", "nothing hovered",
    "no result yet" and "global not set". */
module Wrappers {
  datatype Option<T> = None | Some(value: T)
}
