/** Optional values: a missing record, a JavaScript `null`, an absent field. */
module Wrappers {

  datatype Option<+T> = None | Some(value: T)
}
