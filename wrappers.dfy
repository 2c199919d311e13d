/** Optional values: the model's stand-in for `null`/`undefined` in the editor's code. */
module Wrappers {

  datatype Option<+T> = None | Some(value: T)

}
