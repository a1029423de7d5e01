/** Optional values: the "absent / unparsable / not found" outcomes of the calculator and store. */
module Wrappers {
  datatype Option<+T> = None | Some(value: T)
}
