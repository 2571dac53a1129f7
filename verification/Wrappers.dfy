/** What several modules need to say that there may be no value. */
module Wrappers {
  datatype Option<+T> = None | Some(value: T)
}
