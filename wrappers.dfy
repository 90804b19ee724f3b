/** Optional values: a JavaScript property that may be absent. */
module Wrappers {

  datatype Option<+T> = None | Some(value: T)

}
